/** The validator-side ListenerHeadManager (validator/listener-head-manager.*):
    a ValidatorManagerInterface that skips validation, records each block it
    is handed in a bounded map with a FIFO of ids, hands out block handles,
    forwards blocks to an installed callback and reports simple stats.

    The clock reading in milliseconds and the block bytes are inputs; whether
    a cached weak handle still locks is an input; the installed callback is
    represented by the calls made on it; directory creation, logging and the
    actor timer are not modelled. */
module ValidatorHead {
  import opened Common

  /** BlockReceptionInfo. */
  datatype ReceptionInfo = ReceptionInfo(blockId: BlockId, receivedAtMs: nat, sourceNode: NodeId, sourceIp: string,
                                         propagationHopCount: nat, processingTimeMs: real, blockSize: nat,
                                         validatorSetHash: nat)

  /** A default-constructed AdnlNodeIdShort: the zero id. */
  const DefaultSource: NodeId := 0

  const MaxBlocksToTrack: nat := 10000
  const MaxBlockDataCacheSize: nat := 100
  /** download_block is called with priority 0 and a 10-second timeout. */
  const DownloadTimeoutSeconds: int := 10

  /** The four-argument constructor: the rest keep their member initialisers. */
  function NewReceptionInfo(id: BlockId, timeMs: nat, source: NodeId, size: nat): ReceptionInfo
  {
    ReceptionInfo(id, timeMs, source, "", 0, 0.0, size, 0)
  }

  // ----- the reception map and its FIFO

  datatype Reception = Reception(received: map<BlockId, ReceptionInfo>, lru: seq<BlockId>,
                                 maxBlocksToTrack: nat, totalBlocksReceived: int)

  const FreshReception: Reception := Reception(map[], [], MaxBlocksToTrack, 0)

  /** record_block_reception as written: overwrite, push, and when the map is
      over the limit pop the front id and erase it. */
  function Record(r: Reception, id: BlockId, source: NodeId, dataSize: nat, nowMs: nat): Reception
  {
    var m := r.received[id := NewReceptionInfo(id, nowMs, source, NarrowToU32(dataSize))];
    var q := r.lru + [id];
    if |m| > r.maxBlocksToTrack then
      r.(received := m - {q[0]}, lru := q[1..], totalBlocksReceived := r.totalBlocksReceived + 1)
    else
      r.(received := m, lru := q, totalBlocksReceived := r.totalBlocksReceived + 1)
  }

  ghost predicate Distinct(s: seq<BlockId>)
  {
    forall i, j :: 0 <= i < j < |s| ==> s[i] != s[j]
  }

  /** The state the size limit is meant to keep: the FIFO holds each tracked
      id once, and nothing else, and the map is within the limit. */
  ghost predicate Bounded(r: Reception)
  {
    Distinct(r.lru) && (forall k :: k in r.received <==> k in r.lru) && |r.received| <= r.maxBlocksToTrack
  }

  /** A distinct sequence has as many elements as its set of elements. */
  lemma {:induction false} DistinctElementsCard(q: seq<BlockId>)
    requires Distinct(q)
    ensures |(set x | x in q)| == |q|
    decreases |q|
  {
    if q != [] {
      var x := q[|q| - 1];
      var init := q[..|q| - 1];
      assert Distinct(init);
      assert x !in init;
      assert (set y | y in q) == (set y | y in init) + {x} by {
        assert q == init + [x];
      }
      DistinctElementsCard(init);
    }
  }

  lemma DistinctCard(q: seq<BlockId>, m: map<BlockId, ReceptionInfo>)
    requires Distinct(q) && forall k :: k in m <==> k in q
    ensures |m| == |q|
  {
    assert m.Keys == (set x | x in q);
    DistinctElementsCard(q);
  }

  /** Each call counts one block and pushes one id, pops at most one, and
      erases at most that id; the limit field never changes. */
  lemma RecordSpec(r: Reception, id: BlockId, source: NodeId, dataSize: nat, nowMs: nat)
    ensures var r' := Record(r, id, source, dataSize, nowMs);
            r'.totalBlocksReceived == r.totalBlocksReceived + 1 &&
            r'.maxBlocksToTrack == r.maxBlocksToTrack &&
            (r'.lru == r.lru + [id] || r'.lru == (r.lru + [id])[1..]) &&
            (forall k :: k in r'.received ==> k in r.received || k == id) &&
            (forall k :: (k in r.received || k == id) && k !in r'.received ==> k == (r.lru + [id])[0])
    ensures var r' := Record(r, id, source, dataSize, nowMs);
            id in r'.received ==>
              r'.received[id] == ReceptionInfo(id, nowMs, source, "", 0, 0.0, NarrowToU32(dataSize), 0)
  {
  }

  /** A fresh tracker is empty, with a total of 0 and the limit 10000. */
  lemma FreshReceptionBounded()
    ensures Bounded(FreshReception)
    ensures FreshReception.received == map[] && FreshReception.lru == [] &&
            FreshReception.totalBlocksReceived == 0 && FreshReception.maxBlocksToTrack == 10000
  {
  }

  /** With pairwise-distinct ids the map stays within the limit and its keys
      are exactly the FIFO's contents. */
  lemma RecordNewIdKeepsBound(r: Reception, id: BlockId, source: NodeId, dataSize: nat, nowMs: nat)
    requires Bounded(r) && id !in r.received
    ensures Bounded(Record(r, id, source, dataSize, nowMs))
  {
    var m := r.received[id := NewReceptionInfo(id, nowMs, source, NarrowToU32(dataSize))];
    var q := r.lru + [id];
    assert id !in r.lru;
    assert Distinct(q);
    assert forall k :: k in m <==> k in q;
    DistinctCard(q, m);
    if |m| > r.maxBlocksToTrack {
      var t := q[1..];
      assert Distinct(t);
      assert q[0] !in t;
      forall k ensures k in m - {q[0]} <==> k in t {
        if k in q && k != q[0] {
          var i :| 0 <= i < |q| && q[i] == k;
          assert t[i - 1] == k;
        }
      }
      DistinctCard(t, m - {q[0]});
    }
  }

  /** A stale id at the front (one already erased) makes the next eviction
      erase nothing, so the map ends over the limit. */
  lemma StaleFrontOverflows(r: Reception, id: BlockId, source: NodeId, dataSize: nat, nowMs: nat)
    requires |r.received| == r.maxBlocksToTrack && r.lru != [] && r.lru[0] !in r.received
    requires id !in r.received && id != r.lru[0]
    ensures |Record(r, id, source, dataSize, nowMs).received| == r.maxBlocksToTrack + 1
  {
    var m := r.received[id := NewReceptionInfo(id, nowMs, source, NarrowToU32(dataSize))];
    assert (r.lru + [id])[0] == r.lru[0];
    assert m - {r.lru[0]} == m;
  }

  const BlockA: BlockId := BlockId(BasechainId, 0, 1, 0, 0)
  const BlockB: BlockId := BlockId(BasechainId, 0, 2, 0, 0)
  const BlockC: BlockId := BlockId(BasechainId, 0, 3, 0, 0)

  /** Recording a, a, b, c with a limit of 1 leaves two entries tracked: the
      repeated a leaves a stale copy in the FIFO. */
  lemma RepeatedIdBreaksBound()
    ensures var r0 := Reception(map[], [], 1, 0);
            var r4 := Record(Record(Record(Record(r0, BlockA, 0, 0, 0), BlockA, 0, 0, 0), BlockB, 0, 0, 0), BlockC, 0, 0, 0);
            |r4.received| == 2 && r4.maxBlocksToTrack == 1
  {
    var r0 := Reception(map[], [], 1, 0);
    var r1 := Record(r0, BlockA, 0, 0, 0);
    assert r1.received.Keys == {BlockA} && r1.lru == [BlockA] && r1.maxBlocksToTrack == 1;
    var r2 := Record(r1, BlockA, 0, 0, 0);
    assert r2.received.Keys == {BlockA} && r2.lru == [BlockA, BlockA] && r2.maxBlocksToTrack == 1;
    var r3 := StaleStep(r2);
    StaleFrontOverflows(r3, BlockC, 0, 0, 0);
  }

  /** The third call of the counterexample: b evicts a, leaving a stale a in front. */
  lemma StaleStep(r2: Reception) returns (r3: Reception)
    requires r2.received.Keys == {BlockA} && r2.lru == [BlockA, BlockA] && r2.maxBlocksToTrack == 1
    ensures r3 == Record(r2, BlockB, 0, 0, 0)
    ensures r3.received.Keys == {BlockB} && r3.lru == [BlockA, BlockB] && r3.maxBlocksToTrack == 1
  {
    r3 := Record(r2, BlockB, 0, 0, 0);
    var m := r2.received[BlockB := NewReceptionInfo(BlockB, 0, 0, 0)];
    assert m.Keys == {BlockA, BlockB};
    assert |m| == 2;
    assert (r2.lru + [BlockB])[0] == BlockA;
  }

  /** The FIFO without `x`. */
  function Remove(s: seq<BlockId>, x: BlockId): (r: seq<BlockId>)
    ensures forall k :: k in r <==> k in s && k != x
    ensures |r| <= |s|
    decreases |s|
  {
    if s == [] then [] else if s[0] == x then Remove(s[1..], x) else [s[0]] + Remove(s[1..], x)
  }

  lemma {:induction false} RemoveKeepsDistinct(s: seq<BlockId>, x: BlockId)
    requires Distinct(s)
    ensures Distinct(Remove(s, x))
    decreases |s|
  {
    if s != [] {
      assert Distinct(s[1..]);
      RemoveKeepsDistinct(s[1..], x);
      assert s[0] !in s[1..];
    }
  }

  /** The corrected record: a repeated id moves to the back of the FIFO
      instead of being queued a second time. */
  function RecordLru(r: Reception, id: BlockId, source: NodeId, dataSize: nat, nowMs: nat): Reception
  {
    var m := r.received[id := NewReceptionInfo(id, nowMs, source, NarrowToU32(dataSize))];
    var q := Remove(r.lru, id) + [id];
    if |m| > r.maxBlocksToTrack then
      r.(received := m - {q[0]}, lru := q[1..], totalBlocksReceived := r.totalBlocksReceived + 1)
    else
      r.(received := m, lru := q, totalBlocksReceived := r.totalBlocksReceived + 1)
  }

  /** The corrected record keeps the limit for every sequence of ids, and
      still counts one block per call. */
  lemma RecordLruKeepsBound(r: Reception, id: BlockId, source: NodeId, dataSize: nat, nowMs: nat)
    requires Bounded(r)
    ensures Bounded(RecordLru(r, id, source, dataSize, nowMs))
    ensures RecordLru(r, id, source, dataSize, nowMs).totalBlocksReceived == r.totalBlocksReceived + 1
  {
    var m := r.received[id := NewReceptionInfo(id, nowMs, source, NarrowToU32(dataSize))];
    var p := Remove(r.lru, id);
    var q := p + [id];
    RemoveKeepsDistinct(r.lru, id);
    assert id !in p;
    assert Distinct(q);
    assert forall k :: k in m <==> k in q;
    DistinctCard(q, m);
    DistinctCard(r.lru, r.received);
    assert |p| <= |r.lru|;
    if |m| > r.maxBlocksToTrack {
      var t := q[1..];
      assert Distinct(t);
      assert q[0] !in t;
      forall k ensures k in m - {q[0]} <==> k in t {
        if k in q && k != q[0] {
          var i :| 0 <= i < |q| && q[i] == k;
          assert t[i - 1] == k;
        }
      }
      DistinctCard(t, m - {q[0]});
    }
  }

  // ----- handles

  /** A handle made by create_empty; `received` is set_received's flag. */
  datatype Handle = Handle(id: BlockId, received: bool)

  /** create_or_get_handle: the cached handle when its weak pointer still locks,
      otherwise a new handle marked received, which replaces the cache entry. */
  function GetOrCreate(handles: map<BlockId, Handle>, id: BlockId, locks: bool): (Handle, map<BlockId, Handle>)
  {
    if id in handles && locks then (handles[id], handles)
    else (Handle(id, true), handles[id := Handle(id, true)])
  }

  /** Afterwards the cache holds exactly the returned handle for the id, a new
      handle is marked received, and no other entry changes; asking again
      while it locks returns it and changes nothing. */
  lemma GetOrCreateSpec(handles: map<BlockId, Handle>, id: BlockId, locks: bool)
    ensures var (h, hs) := GetOrCreate(handles, id, locks);
            id in hs && hs[id] == h &&
            (id in handles && locks ==> h == handles[id] && hs == handles) &&
            (!(id in handles && locks) ==> h == Handle(id, true)) &&
            (forall k :: k in handles && k != id ==> k in hs && hs[k] == handles[k]) &&
            hs.Keys == handles.Keys + {id}
    ensures var (h, hs) := GetOrCreate(handles, id, locks);
            GetOrCreate(hs, id, true) == (h, hs)
  {
  }

  // ----- forwarding to the callback

  datatype CallbackCall =
    | DownloadBlock(blockId: BlockId, priority: nat, timeoutSeconds: int)
    | SendShardBlockInfo(blockId: BlockId, ccSeqno: nat, data: seq<byte>)

  /** forward_block_to_callback, with its masterchain and shard branches. */
  function Forward(hasCallback: bool, id: BlockId, ccSeqno: nat, data: seq<byte>): Option<CallbackCall>
  {
    if !hasCallback then None
    else if id.IsMasterchain() then
      if ccSeqno == 0 then Some(DownloadBlock(id, 0, DownloadTimeoutSeconds))
      else Some(SendShardBlockInfo(id, ccSeqno, data))
    else
      if ccSeqno == 0 then Some(DownloadBlock(id, 0, DownloadTimeoutSeconds))
      else Some(SendShardBlockInfo(id, ccSeqno, data))
  }

  /** Nothing without a callback; otherwise download_block exactly when the
      catchain seqno is 0, the same on the masterchain and on shards. */
  lemma ForwardSpec(hasCallback: bool, id: BlockId, ccSeqno: nat, data: seq<byte>)
    ensures Forward(hasCallback, id, ccSeqno, data).None? <==> !hasCallback
    ensures hasCallback && ccSeqno == 0 ==> Forward(hasCallback, id, ccSeqno, data) == Some(DownloadBlock(id, 0, 10))
    ensures hasCallback && ccSeqno != 0 ==>
              Forward(hasCallback, id, ccSeqno, data) == Some(SendShardBlockInfo(id, ccSeqno, data))
  {
  }

  /** Moving a block to another workchain changes only the id in the call. */
  lemma ForwardIgnoresWorkchain(hasCallback: bool, id: BlockId, workchain: int, ccSeqno: nat, data: seq<byte>)
    ensures var a := Forward(hasCallback, id, ccSeqno, data);
            var b := Forward(hasCallback, id.(workchain := workchain), ccSeqno, data);
            a.Some? == b.Some? &&
            (a.Some? ==> a.value.DownloadBlock? == b.value.DownloadBlock? && b.value.blockId == id.(workchain := workchain))
  {
  }

  /** prevalidate_block's source: the first signature's node, or the zero id. */
  function BroadcastSource(signatures: seq<NodeId>): (s: NodeId)
    ensures signatures == [] ==> s == DefaultSource
    ensures signatures != [] ==> s == signatures[0]
  {
    if signatures == [] then DefaultSource else signatures[0]
  }

  // ----- stats

  type StatsEntry = (string, string)

  /** A registered provider. Its callback is not data: what it replies is
      asked anew at every prepare_stats, so the replies of one call are an
      input of that call (`Replies`). */
  datatype Provider = Provider(prefix: string)

  /** The callbacks' replies during one prepare_stats, by provider index:
      `Some(entries)` for an ok result, `None` for an error. An index with no
      reply is a callback that did not answer before prepare_stats returned. */
  type Replies = map<nat, Option<seq<StatsEntry>>>

  predicate Answered(replies: Replies, idx: nat)
  {
    idx in replies && replies[idx].Some?
  }

  function Prefixed(prefix: string, entries: seq<StatsEntry>): (r: seq<StatsEntry>)
    ensures |r| == |entries|
    ensures forall i :: 0 <= i < |entries| ==> r[i] == (prefix + entries[i].0, entries[i].1)
  {
    seq(|entries|, i requires 0 <= i < |entries| => (prefix + entries[i].0, entries[i].1))
  }

  function ProviderEntries(providers: map<nat, Provider>, replies: Replies, order: seq<nat>): seq<StatsEntry>
    decreases |order|
  {
    if order == [] then []
    else
      var idx := order[|order| - 1];
      var prev := ProviderEntries(providers, replies, order[..|order| - 1]);
      if idx in providers && Answered(replies, idx) then
        prev + Prefixed(providers[idx].prefix, replies[idx].value)
      else prev
  }

  function HeadEntries(total: int, tracked: nat): seq<StatsEntry>
  {
    [("mode", "listener_head"), ("total_blocks_received", IntToDecimal(total)), ("tracked_blocks", NatToDecimal(tracked))]
  }

  // ----- the manager state

  datatype ManagerState = ManagerState(
    hasCallback: bool,
    permanentKeys: set<KeyHash>,
    tempKeys: set<KeyHash>,
    started: bool,
    handles: map<BlockId, Handle>,
    reception: Reception,
    lastMasterchainBlockId: BlockId,
    blockDataCache: map<BlockId, seq<byte>>,
    maxBlockDataCacheSize: nat,
    statsProviders: map<nat, Provider>)

  const FreshManager: ManagerState :=
    ManagerState(false, {}, {}, false, map[], FreshReception, DefaultBlockId, map[], MaxBlockDataCacheSize, map[])

  /** prepare_stats: the three head entries, the masterchain entries when a
      masterchain block is known (`mcEntries` is their rendering), then each
      provider's reply of this call under its prefix, in ascending index order. */
  ghost function StatsOf(st: ManagerState, mcEntries: seq<StatsEntry>, replies: Replies): seq<StatsEntry>
  {
    HeadEntries(st.reception.totalBlocksReceived, |st.reception.received|) +
    (if st.lastMasterchainBlockId.IsValid() then mcEntries else []) +
    ProviderEntries(st.statsProviders, replies, Ascending(st.statsProviders.Keys))
  }

  /** The stats start with mode, total_blocks_received and tracked_blocks. */
  lemma StatsHead(st: ManagerState, mcEntries: seq<StatsEntry>, replies: Replies)
    ensures |StatsOf(st, mcEntries, replies)| >= 3
    ensures StatsOf(st, mcEntries, replies)[0] == ("mode", "listener_head")
    ensures StatsOf(st, mcEntries, replies)[1] == ("total_blocks_received", IntToDecimal(st.reception.totalBlocksReceived))
    ensures StatsOf(st, mcEntries, replies)[2] == ("tracked_blocks", NatToDecimal(|st.reception.received|))
  {
  }

  /** Block reception by any of the entry points: record, then forward. */
  function Receive(st: ManagerState, id: BlockId, source: NodeId, ccSeqno: nat, data: seq<byte>, nowMs: nat)
    : (ManagerState, Option<CallbackCall>)
  {
    (st.(reception := Record(st.reception, id, source, |data|, nowMs)), Forward(st.hasCallback, id, ccSeqno, data))
  }

  /** Nothing assigns the masterchain block or fills the data cache, so from a
      fresh manager both stay empty under every operation of this model. */
  ghost predicate NeverFilled(st: ManagerState)
  {
    st.lastMasterchainBlockId == DefaultBlockId && st.blockDataCache == map[]
  }

  lemma ReceiveKeepsNeverFilled(st: ManagerState, id: BlockId, source: NodeId, ccSeqno: nat, data: seq<byte>, nowMs: nat,
                                locks: bool)
    requires NeverFilled(st)
    ensures NeverFilled(Receive(st, id, source, ccSeqno, data, nowMs).0)
    ensures NeverFilled(Receive(st, id, source, ccSeqno, data, nowMs).0.(handles :=
              GetOrCreate(Receive(st, id, source, ccSeqno, data, nowMs).0.handles, id, locks).1))
  {
  }

  /** Without a known masterchain block the stats hold no masterchain entries,
      only the head and the providers' replies. */
  lemma NeverFilledStats(st: ManagerState, mcEntries: seq<StatsEntry>, replies: Replies)
    requires NeverFilled(st)
    ensures StatsOf(st, mcEntries, replies) ==
            HeadEntries(st.reception.totalBlocksReceived, |st.reception.received|) +
            ProviderEntries(st.statsProviders, replies, Ascending(st.statsProviders.Keys))
  {
    assert !DefaultBlockId.IsValid();
  }

  const BlockDataNotFound: string := "block data not found"
  const NoMasterchainBlock: string := "no masterchain blocks received yet"
  /** The answer shared by the unsupported state queries (get_top_masterchain_state and others). */
  const StateNotMaintained: string := "state not maintained in listener head mode"

  class ListenerHeadManager {
    var hasCallback: bool
    var permanentKeys: set<KeyHash>
    var tempKeys: set<KeyHash>
    var started: bool
    var handles: map<BlockId, Handle>
    var reception: Reception
    var lastMasterchainBlockId: BlockId
    var blockDataCache: map<BlockId, seq<byte>>
    var maxBlockDataCacheSize: nat
    var statsProviders: map<nat, Provider>

    function State(): ManagerState
      reads this
    {
      ManagerState(hasCallback, permanentKeys, tempKeys, started, handles, reception, lastMasterchainBlockId,
                   blockDataCache, maxBlockDataCacheSize, statsProviders)
    }

    constructor ()
      ensures State() == FreshManager
    {
      hasCallback := false;
      permanentKeys := {};
      tempKeys := {};
      started := false;
      handles := map[];
      reception := FreshReception;
      lastMasterchainBlockId := DefaultBlockId;
      blockDataCache := map[];
      maxBlockDataCacheSize := MaxBlockDataCacheSize;
      statsProviders := map[];
    }

    method StartUp()
      modifies this
      ensures State() == old(State()).(started := true)
    {
      started := true;
    }

    method InstallCallback()
      modifies this
      ensures State() == old(State()).(hasCallback := true)
    {
      hasCallback := true;
    }

    method AddPermanentKey(key: KeyHash)
      modifies this
      ensures State() == old(State()).(permanentKeys := old(permanentKeys) + {key})
    {
      permanentKeys := permanentKeys + {key};
    }

    method AddTempKey(key: KeyHash)
      modifies this
      ensures State() == old(State()).(tempKeys := old(tempKeys) + {key})
    {
      tempKeys := tempKeys + {key};
    }

    method DelPermanentKey(key: KeyHash)
      modifies this
      ensures State() == old(State()).(permanentKeys := old(permanentKeys) - {key})
    {
      permanentKeys := permanentKeys - {key};
    }

    method DelTempKey(key: KeyHash)
      modifies this
      ensures State() == old(State()).(tempKeys := old(tempKeys) - {key})
    {
      tempKeys := tempKeys - {key};
    }

    method RecordBlockReception(id: BlockId, source: NodeId, data: seq<byte>, nowMs: nat)
      modifies this
      ensures State() == old(State()).(reception := Record(old(reception), id, source, |data|, nowMs))
    {
      var info := NewReceptionInfo(id, nowMs, source, NarrowToU32(|data|));
      var received := reception.received[id := info];
      var lru := reception.lru + [id];
      if |received| > reception.maxBlocksToTrack {
        var toRemove := lru[0];
        lru := lru[1..];
        received := received - {toRemove};
      }
      reception := reception.(received := received, lru := lru, totalBlocksReceived := reception.totalBlocksReceived + 1);
    }

    method ForwardBlockToCallback(id: BlockId, ccSeqno: nat, data: seq<byte>) returns (call: Option<CallbackCall>)
      ensures call == Forward(hasCallback, id, ccSeqno, data)
    {
      if !hasCallback {
        return None;
      }
      if id.IsMasterchain() {
        if ccSeqno == 0 {
          call := Some(DownloadBlock(id, 0, DownloadTimeoutSeconds));
        } else {
          call := Some(SendShardBlockInfo(id, ccSeqno, data));
        }
      } else {
        if ccSeqno == 0 {
          call := Some(DownloadBlock(id, 0, DownloadTimeoutSeconds));
        } else {
          call := Some(SendShardBlockInfo(id, ccSeqno, data));
        }
      }
    }

    method CreateOrGetHandle(id: BlockId, locks: bool) returns (handle: Handle)
      modifies this
      ensures (handle, handles) == GetOrCreate(old(handles), id, locks)
      ensures State() == old(State()).(handles := handles)
    {
      if id in handles && locks {
        return handles[id];
      }
      handle := Handle(id, false);
      handle := handle.(received := true);
      handles := handles[id := handle];
    }

    method GetBlockHandle(id: BlockId, locks: bool) returns (handle: Handle)
      modifies this
      ensures (handle, handles) == GetOrCreate(old(handles), id, locks)
      ensures State() == old(State()).(handles := handles)
    {
      handle := CreateOrGetHandle(id, locks);
    }

    /** validate_block: record with the zero source, get a handle, forward with seqno 0. */
    method ValidateBlock(id: BlockId, data: seq<byte>, nowMs: nat, locks: bool)
      returns (handle: Handle, call: Option<CallbackCall>)
      modifies this
      ensures var (st, c) := Receive(old(State()), id, DefaultSource, 0, data, nowMs);
              (handle, handles) == GetOrCreate(st.handles, id, locks) &&
              State() == st.(handles := handles) && call == c
    {
      RecordBlockReception(id, DefaultSource, data, nowMs);
      handle := CreateOrGetHandle(id, locks);
      call := ForwardBlockToCallback(id, 0, data);
    }

    /** prevalidate_block: the source is the first signature's node; always succeeds. */
    method PrevalidateBlock(id: BlockId, signatures: seq<NodeId>, ccSeqno: nat, data: seq<byte>, nowMs: nat)
      returns (call: Option<CallbackCall>)
      modifies this
      ensures (State(), call) == Receive(old(State()), id, BroadcastSource(signatures), ccSeqno, data, nowMs)
    {
      var source := DefaultSource;
      if signatures != [] {
        source := signatures[0];
      }
      RecordBlockReception(id, source, data, nowMs);
      call := ForwardBlockToCallback(id, ccSeqno, data);
    }

    method NewBlockCandidate(id: BlockId, data: seq<byte>, nowMs: nat) returns (call: Option<CallbackCall>)
      modifies this
      ensures (State(), call) == Receive(old(State()), id, DefaultSource, 0, data, nowMs)
    {
      RecordBlockReception(id, DefaultSource, data, nowMs);
      call := ForwardBlockToCallback(id, 0, data);
    }

    method NewShardBlock(id: BlockId, ccSeqno: nat, data: seq<byte>, nowMs: nat) returns (call: Option<CallbackCall>)
      modifies this
      ensures (State(), call) == Receive(old(State()), id, DefaultSource, ccSeqno, data, nowMs)
    {
      RecordBlockReception(id, DefaultSource, data, nowMs);
      call := ForwardBlockToCallback(id, ccSeqno, data);
    }

    method GetTopMasterchainBlock() returns (r: Result<BlockId>)
      ensures lastMasterchainBlockId.IsValid() ==> r == Success(lastMasterchainBlockId)
      ensures !lastMasterchainBlockId.IsValid() ==> r == Failure(NoMasterchainBlock)
    {
      if lastMasterchainBlockId.IsValid() {
        r := Success(lastMasterchainBlockId);
      } else {
        r := Failure(NoMasterchainBlock);
      }
    }

    method GetTopMasterchainState() returns (r: Result<()>)
      ensures r == Failure(StateNotMaintained)
    {
      r := Failure(StateNotMaintained);
    }

    method GetBlockData(id: BlockId) returns (r: Result<seq<byte>>)
      ensures id in blockDataCache ==> r == Success(blockDataCache[id])
      ensures id !in blockDataCache ==> r == Failure(BlockDataNotFound)
    {
      if id in blockDataCache {
        r := Success(blockDataCache[id]);
      } else {
        r := Failure(BlockDataNotFound);
      }
    }

    method RegisterStatsProvider(idx: nat, prefix: string)
      modifies this
      ensures State() == old(State()).(statsProviders := old(statsProviders)[idx := Provider(prefix)])
    {
      statsProviders := statsProviders[idx := Provider(prefix)];
    }

    method UnregisterStatsProvider(idx: nat)
      modifies this
      ensures State() == old(State()).(statsProviders := old(statsProviders) - {idx})
    {
      statsProviders := statsProviders - {idx};
    }

    method PrepareStats(mcEntries: seq<StatsEntry>, replies: Replies) returns (stats: seq<StatsEntry>)
      ensures stats == StatsOf(State(), mcEntries, replies)
    {
      stats := HeadEntries(reception.totalBlocksReceived, |reception.received|);
      if lastMasterchainBlockId.IsValid() {
        stats := stats + mcEntries;
      }
      var order := AscendingOf(statsProviders.Keys);
      var fromProviders := CollectProviderEntries(statsProviders, replies, order);
      stats := stats + fromProviders;
    }
  }

  /** The loop of prepare_stats over the providers, in the order given. */
  method CollectProviderEntries(providers: map<nat, Provider>, replies: Replies, order: seq<nat>)
    returns (entries: seq<StatsEntry>)
    ensures entries == ProviderEntries(providers, replies, order)
  {
    entries := [];
    for i := 0 to |order|
      invariant entries == ProviderEntries(providers, replies, order[..i])
    {
      ProviderEntriesSnoc(providers, replies, order, i);
      var idx := order[i];
      if idx in providers && idx in replies && replies[idx].Some? {
        entries := entries + Prefixed(providers[idx].prefix, replies[idx].value);
      }
    }
    assert order[..|order|] == order;
  }

  lemma ProviderEntriesSnoc(providers: map<nat, Provider>, replies: Replies, order: seq<nat>, i: nat)
    requires i < |order|
    ensures var idx := order[i];
            ProviderEntries(providers, replies, order[..i + 1]) ==
              if idx in providers && Answered(replies, idx) then
                ProviderEntries(providers, replies, order[..i]) + Prefixed(providers[idx].prefix, replies[idx].value)
              else ProviderEntries(providers, replies, order[..i])
  {
    assert order[..i + 1][..i] == order[..i];
  }

  /** Only the replies of registered providers that answered count: replies
      that agree on those indices give the same entries, whatever the rest. */
  lemma {:induction false} ProviderEntriesReadsRegistered(providers: map<nat, Provider>, a: Replies, b: Replies,
                                                          order: seq<nat>)
    requires forall idx :: idx in order && idx in providers ==>
               Answered(a, idx) == Answered(b, idx) && (Answered(a, idx) ==> a[idx] == b[idx])
    ensures ProviderEntries(providers, a, order) == ProviderEntries(providers, b, order)
    decreases |order|
  {
    if order != [] {
      var init := order[..|order| - 1];
      assert forall idx :: idx in init ==> idx in order;
      ProviderEntriesReadsRegistered(providers, a, b, init);
    }
  }

  /** Each registered provider that answered contributes its reply, prefixed,
      in the order given; the others contribute nothing. */
  lemma ProviderEntriesAppend(providers: map<nat, Provider>, replies: Replies, order: seq<nat>,
                                                 idx: nat)
    ensures ProviderEntries(providers, replies, order + [idx]) ==
            ProviderEntries(providers, replies, order) +
            (if idx in providers && Answered(replies, idx) then Prefixed(providers[idx].prefix, replies[idx].value) else [])
  {
    assert (order + [idx])[..|order|] == order;
  }

  /** The callback is asked again at every prepare_stats: with one provider
      registered, two calls whose replies differ give different stats. */
  lemma RepliesReachStats(st: ManagerState, mcEntries: seq<StatsEntry>)
    requires st.statsProviders == map[0 := Provider("p.")]
    ensures StatsOf(st, mcEntries, map[0 := Some([("a", "1")])]) != StatsOf(st, mcEntries, map[0 := Some([("a", "2")])])
  {
    var order := Ascending(st.statsProviders.Keys);
    assert st.statsProviders.Keys == {0};
    assert 0 in order;
    assert order == [0];
    assert [] + [0] == order;
    var r1: Replies := map[0 := Some([("a", "1")])];
    var r2: Replies := map[0 := Some([("a", "2")])];
    ProviderEntriesAppend(st.statsProviders, r1, [], 0);
    ProviderEntriesAppend(st.statsProviders, r2, [], 0);
    var e1 := ProviderEntries(st.statsProviders, r1, order);
    var e2 := ProviderEntries(st.statsProviders, r2, order);
    assert |e1| == 1 && e1[0].1 == "1";
    assert |e2| == 1 && e2[0].1 == "2";
    var one := StatsOf(st, mcEntries, r1);
    var two := StatsOf(st, mcEntries, r2);
    assert one[|one| - 1] == e1[0];
    assert two[|two| - 1] == e2[0];
  }

  /** One call of add_permanent_key/add_temp_key (`AddKey`) or
      del_permanent_key/del_temp_key (`DelKey`) on one of the key sets. */
  datatype KeyOp = AddKey(key: KeyHash) | DelKey(key: KeyHash)

  /** The key set after a run of calls, oldest first (each call is the
      set update its method's contract states). */
  function ApplyKeyOps(keys: set<KeyHash>, ops: seq<KeyOp>): set<KeyHash>
    decreases |ops|
  {
    if ops == [] then keys
    else
      var init := ApplyKeyOps(keys, ops[..|ops| - 1]);
      match ops[|ops| - 1]
      case AddKey(k) => init + {k}
      case DelKey(k) => init - {k}
  }

  /** The newest call in the run that names the key, if any. */
  function LastKeyOp(ops: seq<KeyOp>, key: KeyHash): Option<KeyOp>
    decreases |ops|
  {
    if ops == [] then None
    else if ops[|ops| - 1].key == key then Some(ops[|ops| - 1])
    else LastKeyOp(ops[..|ops| - 1], key)
  }

  /** After any run of add/del calls a key is present exactly when the last
      call naming it added it, or, when none named it, when it was present
      before: adding twice is adding once, and a later delete wins. */
  lemma {:induction false} KeySetsSpec(keys: set<KeyHash>, ops: seq<KeyOp>, key: KeyHash)
    ensures key in ApplyKeyOps(keys, ops) <==>
            match LastKeyOp(ops, key)
            case None => key in keys
            case Some(op) => op.AddKey?
    decreases |ops|
  {
    if ops != [] {
      KeySetsSpec(keys, ops[..|ops| - 1], key);
    }
  }

  /** One call of register_stats_provider (`Register`) or
      unregister_stats_provider (`Unregister`). */
  datatype ProviderOp = Register(idx: nat, provider: Provider) | Unregister(idx: nat)

  function ApplyProviderOps(providers: map<nat, Provider>, ops: seq<ProviderOp>): map<nat, Provider>
    decreases |ops|
  {
    if ops == [] then providers
    else
      var init := ApplyProviderOps(providers, ops[..|ops| - 1]);
      match ops[|ops| - 1]
      case Register(i, p) => init[i := p]
      case Unregister(i) => init - {i}
  }

  function LastProviderOp(ops: seq<ProviderOp>, idx: nat): Option<ProviderOp>
    decreases |ops|
  {
    if ops == [] then None
    else if ops[|ops| - 1].idx == idx then Some(ops[|ops| - 1])
    else LastProviderOp(ops[..|ops| - 1], idx)
  }

  /** After any run of register/unregister calls, the provider at an index is
      the one the last register for it installed, unless an unregister came
      later; an index no call named keeps its provider. */
  lemma {:induction false} ProvidersSpec(providers: map<nat, Provider>, ops: seq<ProviderOp>, idx: nat)
    ensures var m := ApplyProviderOps(providers, ops);
            match LastProviderOp(ops, idx)
            case None => (idx in m <==> idx in providers) && (idx in m ==> m[idx] == providers[idx])
            case Some(op) =>
              (op.Unregister? ==> idx !in m) &&
              (op.Register? ==> idx in m && m[idx] == op.provider)
    decreases |ops|
  {
    if ops != [] {
      ProvidersSpec(providers, ops[..|ops| - 1], idx);
    }
  }
}
