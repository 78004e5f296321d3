/** ConnectionManager (listener-connection-manager.hpp): a peer registry, a set
    of validator ids and a set of overlays, driving reconnections on a timer.

    Each connect becomes a ConnectRequest: the ADNL add_peer call with its
    priority, and for a validator the overlay subscriptions.  The current time
    is the `now` parameter; DHT answers are inputs. */
module HeaderConnections {
  import opened Common
  import opened NetworkConfig
  import opened Scheduling

  datatype PeerInfo = PeerInfo(addr: IpAddress, isValidator: bool, lastConnectAttempt: int)

  datatype ConnectRequest = ConnectRequest(peer: NodeId, addr: IpAddress, priority: nat, subscribe: seq<OverlayId>)

  datatype ManagerState = ManagerState(
    peers: map<NodeId, PeerInfo>,
    validators: set<NodeId>,
    overlaysToMonitor: set<OverlayId>,
    maxConnections: nat)

  function LastsOf(peers: map<NodeId, PeerInfo>): Lasts
  {
    map k | k in peers :: peers[k].lastConnectAttempt
  }

  function WithLasts(peers: map<NodeId, PeerInfo>, lasts: Lasts): map<NodeId, PeerInfo>
  {
    map k | k in peers :: if k in lasts then peers[k].(lastConnectAttempt := lasts[k]) else peers[k]
  }

  lemma WithLastsUpdate(peers: map<NodeId, PeerInfo>, lasts: Lasts, id: NodeId, now: int)
    requires id in peers
    ensures WithLasts(peers, lasts[id := now]) == WithLasts(peers, lasts)[id := peers[id].(lastConnectAttempt := now)]
  {
  }

  lemma LastsOfWithLasts(peers: map<NodeId, PeerInfo>, lasts: Lasts)
    requires lasts.Keys == peers.Keys
    ensures LastsOf(WithLasts(peers, lasts)) == lasts
    ensures WithLasts(peers, lasts).Keys == peers.Keys
  {
  }

  /** connect_to_peer's request for one peer. */
  ghost function RequestFor(id: NodeId, addr: IpAddress, isValidator: bool, overlays: set<OverlayId>): ConnectRequest
  {
    ConnectRequest(id, addr, PriorityFor(isValidator), if isValidator then Ascending(overlays) else [])
  }

  ghost function Requests(peers: map<NodeId, PeerInfo>, ids: seq<NodeId>, isValidator: bool,
                          overlays: set<OverlayId>): seq<ConnectRequest>
    decreases |ids|
  {
    if ids == [] then []
    else
      Requests(peers, ids[..|ids| - 1], isValidator, overlays) +
      [RequestFor(ids[|ids| - 1], if ids[|ids| - 1] in peers then peers[ids[|ids| - 1]].addr else IpAddress(0, 0),
                  isValidator, overlays)]
  }

  /** add_peer before its update_connections: a fresh entry stamped `now`, and
      the id added to the validators when it is one (never removed). */
  function AddPeerState(st: ManagerState, id: NodeId, addr: IpAddress, isValidator: bool, now: int): ManagerState
  {
    st.(peers := st.peers[id := PeerInfo(addr, isValidator, now)],
        validators := if isValidator then st.validators + {id} else st.validators)
  }

  function AddOverlayState(st: ManagerState, overlay: OverlayId): ManagerState
  {
    st.(overlaysToMonitor := st.overlaysToMonitor + {overlay})
  }

  /** update_connections: the schedule applied to the peers, with the requests it sends. */
  ghost function UpdateStep(st: ManagerState, now: int): (ManagerState, seq<ConnectRequest>)
  {
    var s := Schedule(LastsOf(st.peers), st.validators, st.maxConnections, now);
    (st.(peers := WithLasts(st.peers, s.0)),
     Requests(st.peers, s.1, true, st.overlaysToMonitor) + Requests(st.peers, s.2, false, st.overlaysToMonitor))
  }

  lemma RequestsAppend(peers: map<NodeId, PeerInfo>, ids: seq<NodeId>, id: NodeId, isValidator: bool,
                       overlays: set<OverlayId>)
    requires id in peers
    ensures Requests(peers, ids + [id], isValidator, overlays) ==
            Requests(peers, ids, isValidator, overlays) + [RequestFor(id, peers[id].addr, isValidator, overlays)]
  {
    assert (ids + [id])[..|ids|] == ids;
  }

  // ----- properties

  lemma {:induction false} RequestsSpec(peers: map<NodeId, PeerInfo>, ids: seq<NodeId>, isValidator: bool,
                                        overlays: set<OverlayId>)
    ensures |Requests(peers, ids, isValidator, overlays)| == |ids|
    ensures forall i :: 0 <= i < |ids| ==>
              Requests(peers, ids, isValidator, overlays)[i].peer == ids[i] &&
              Requests(peers, ids, isValidator, overlays)[i].priority == PriorityFor(isValidator) &&
              (ids[i] in peers ==> Requests(peers, ids, isValidator, overlays)[i].addr == peers[ids[i]].addr) &&
              Requests(peers, ids, isValidator, overlays)[i].subscribe ==
                (if isValidator then Ascending(overlays) else [])
    decreases |ids|
  {
    if ids != [] {
      RequestsSpec(peers, ids[..|ids| - 1], isValidator, overlays);
    }
  }

  /** The entry is replaced by a fresh one stamped `now`; a validator id joins
      the validator set, and re-adding it as an ordinary peer leaves it there. */
  lemma AddPeerSpec(st: ManagerState, id: NodeId, addr: IpAddress, isValidator: bool, now: int)
    ensures AddPeerState(st, id, addr, isValidator, now).peers[id] == PeerInfo(addr, isValidator, now)
    ensures isValidator ==> id in AddPeerState(st, id, addr, isValidator, now).validators
    ensures st.validators <= AddPeerState(st, id, addr, isValidator, now).validators
    ensures forall k :: k in st.peers && k != id ==> AddPeerState(st, id, addr, isValidator, now).peers[k] == st.peers[k]
  {
  }

  /** The update_connections that add_peer triggers never connects the peer
      just added: its elapsed time is 0. */
  lemma AddedPeerNotConnected(st: ManagerState, id: NodeId, addr: IpAddress, isValidator: bool, now: int)
    ensures var r := UpdateStep(AddPeerState(st, id, addr, isValidator, now), now);
            (forall i :: 0 <= i < |r.1| ==> r.1[i].peer != id) && r.0.peers[id].lastConnectAttempt == now
  {
    var a := AddPeerState(st, id, addr, isValidator, now);
    var s := Schedule(LastsOf(a.peers), a.validators, a.maxConnections, now);
    FreshPeerNotScheduled(LastsOf(a.peers), a.validators, a.maxConnections, now, id);
    ScheduleSpec(LastsOf(a.peers), a.validators, a.maxConnections, now);
    RequestsSpec(a.peers, s.1, true, a.overlaysToMonitor);
    RequestsSpec(a.peers, s.2, false, a.overlaysToMonitor);
    var r := UpdateStep(a, now);
    forall i | 0 <= i < |r.1|
      ensures r.1[i].peer != id
    {
      if i < |s.1| {
        assert r.1[i] == Requests(a.peers, s.1, true, a.overlaysToMonitor)[i];
        assert s.1[i] in s.1;
      } else {
        assert r.1[i] == Requests(a.peers, s.2, false, a.overlaysToMonitor)[i - |s.1|];
        assert s.2[i - |s.1|] in s.2;
      }
    }
  }

  /** add_overlay is an idempotent set insert. */
  lemma AddOverlayIdempotent(st: ManagerState, overlay: OverlayId)
    ensures AddOverlayState(AddOverlayState(st, overlay), overlay) == AddOverlayState(st, overlay)
    ensures overlay in AddOverlayState(st, overlay).overlaysToMonitor
    ensures overlay in st.overlaysToMonitor ==> AddOverlayState(st, overlay) == st
  {
  }

  /** update_connections changes only last-connect times, and exactly those
      of the peers it connects, which it stamps `now`. */
  lemma UpdateStepFrame(st: ManagerState, now: int)
    ensures var r := UpdateStep(st, now);
            var s := Schedule(LastsOf(st.peers), st.validators, st.maxConnections, now);
            r.0.validators == st.validators && r.0.overlaysToMonitor == st.overlaysToMonitor &&
            r.0.maxConnections == st.maxConnections && r.0.peers.Keys == st.peers.Keys &&
            (forall k :: k in st.peers ==>
               r.0.peers[k] == if k in s.1 || k in s.2 then st.peers[k].(lastConnectAttempt := now) else st.peers[k])
  {
    ScheduleSpec(LastsOf(st.peers), st.validators, st.maxConnections, now);
  }

  /** Every due validator known as a peer is connected at the uint32-maximum
      priority and subscribed to every monitored overlay, whatever the cap. */
  lemma UpdateConnectsDueValidators(st: ManagerState, now: int, id: NodeId)
    requires id in st.validators && id in st.peers && Due(st.peers[id].lastConnectAttempt, now)
    ensures exists i :: 0 <= i < |UpdateStep(st, now).1| &&
              UpdateStep(st, now).1[i] == ConnectRequest(id, st.peers[id].addr, U32Max, Ascending(st.overlaysToMonitor))
  {
    var s := Schedule(LastsOf(st.peers), st.validators, st.maxConnections, now);
    ScheduleSpec(LastsOf(st.peers), st.validators, st.maxConnections, now);
    var vr := Requests(st.peers, s.1, true, st.overlaysToMonitor);
    RequestsSpec(st.peers, s.1, true, st.overlaysToMonitor);
    assert id in s.1;
    var i :| 0 <= i < |s.1| && s.1[i] == id;
    assert UpdateStep(st, now).1[i] == vr[i];
  }

  /** The requests of both passes, position by position. */
  lemma RequestsConcatSpec(peers: map<NodeId, PeerInfo>, a: seq<NodeId>, b: seq<NodeId>, overlays: set<OverlayId>)
    ensures var r := Requests(peers, a, true, overlays) + Requests(peers, b, false, overlays);
            |r| == |a| + |b| &&
            (forall i :: 0 <= i < |a| ==> r[i].peer == a[i] && r[i].priority == U32Max) &&
            (forall i :: |a| <= i < |r| ==> r[i].peer == b[i - |a|] && r[i].priority == 0 && r[i].subscribe == [])
  {
    var ra: seq<ConnectRequest> := Requests(peers, a, true, overlays);
    var rb: seq<ConnectRequest> := Requests(peers, b, false, overlays);
    RequestsSpec(peers, a, true, overlays);
    RequestsSpec(peers, b, false, overlays);
    forall i | 0 <= i < |a|
      ensures (ra + rb)[i].peer == a[i] && (ra + rb)[i].priority == U32Max
    {
      assert (ra + rb)[i] == ra[i];
    }
    forall i | |a| <= i < |a| + |b|
      ensures (ra + rb)[i].peer == b[i - |a|] && (ra + rb)[i].priority == 0 && (ra + rb)[i].subscribe == []
    {
      assert (ra + rb)[i] == rb[i - |a|];
    }
  }

  /** A due peer outside the validator set that gets no request was reached
      only once the others had used up max - |validators| places. */
  lemma UpdateLeavesOutOnlyAtCap(st: ManagerState, now: int, id: NodeId)
    requires id in st.peers && id !in st.validators && Due(st.peers[id].lastConnectAttempt, now)
    requires forall i :: 0 <= i < |UpdateStep(st, now).1| ==> UpdateStep(st, now).1[i].peer != id
    ensures |st.validators| + (|UpdateStep(st, now).1| - |Schedule(LastsOf(st.peers), st.validators, st.maxConnections, now).1|)
              >= st.maxConnections
  {
    var s := Schedule(LastsOf(st.peers), st.validators, st.maxConnections, now);
    RequestsConcatSpec(st.peers, s.1, s.2, st.overlaysToMonitor);
    var r := UpdateStep(st, now).1;
    forall j | 0 <= j < |s.2|
      ensures s.2[j] != id
    {
      assert r[|s.1| + j].peer == s.2[j];
    }
    assert LastsOf(st.peers)[id] == st.peers[id].lastConnectAttempt;
    ScheduleLeavesOutOnlyAtCap(LastsOf(st.peers), st.validators, st.maxConnections, now, id);
  }

  /** At most max - |validators| ordinary peers are connected, after the
      validators, each of them due, at priority 0 and with no subscription. */
  lemma UpdateCapsOthers(st: ManagerState, now: int)
    ensures var r := UpdateStep(st, now);
            var s := Schedule(LastsOf(st.peers), st.validators, st.maxConnections, now);
            |r.1| == |s.1| + |s.2| &&
            (forall i :: 0 <= i < |s.1| ==> r.1[i].peer in st.validators && r.1[i].priority == U32Max) &&
            |s.2| <= (if st.maxConnections > |st.validators| then st.maxConnections - |st.validators| else 0) &&
            (forall i :: |s.1| <= i < |r.1| ==>
               r.1[i].priority == 0 && r.1[i].subscribe == [] && r.1[i].peer !in st.validators &&
               r.1[i].peer in st.peers && Due(st.peers[r.1[i].peer].lastConnectAttempt, now))
    ensures var r := UpdateStep(st, now);
            var s := Schedule(LastsOf(st.peers), st.validators, st.maxConnections, now);
            forall id :: id in st.peers && id !in st.validators && Due(st.peers[id].lastConnectAttempt, now) &&
                         (forall i :: 0 <= i < |r.1| ==> r.1[i].peer != id) ==>
                           |st.validators| + (|r.1| - |s.1|) >= st.maxConnections
  {
    var s := Schedule(LastsOf(st.peers), st.validators, st.maxConnections, now);
    ScheduleSpec(LastsOf(st.peers), st.validators, st.maxConnections, now);
    RequestsConcatSpec(st.peers, s.1, s.2, st.overlaysToMonitor);
    var r := UpdateStep(st, now).1;
    forall id | id in st.peers && id !in st.validators && Due(st.peers[id].lastConnectAttempt, now) &&
                (forall i :: 0 <= i < |r| ==> r[i].peer != id)
      ensures |st.validators| + (|r| - |s.1|) >= st.maxConnections
    {
      UpdateLeavesOutOnlyAtCap(st, now, id);
    }
    forall i | 0 <= i < |s.1|
      ensures r[i].peer in st.validators
    {
      assert s.1[i] in s.1;
    }
    forall i | |s.1| <= i < |r|
      ensures r[i].peer !in st.validators && r[i].peer in st.peers &&
              Due(st.peers[r[i].peer].lastConnectAttempt, now)
    {
      assert s.2[i - |s.1|] in s.2;
    }
  }

  // ----- the manager

  class ConnectionManager {
    var peers: map<NodeId, PeerInfo>
    var validators: set<NodeId>
    var overlaysToMonitor: set<OverlayId>
    var maxConnections: nat

    function State(): ManagerState
      reads this
    {
      ManagerState(peers, validators, overlaysToMonitor, maxConnections)
    }

    constructor ()
      ensures State() == ManagerState(map[], {}, {}, MaxOutboundConnections)
    {
      peers := map[];
      validators := {};
      overlaysToMonitor := {};
      maxConnections := MaxOutboundConnections;
    }

    method AddPeer(id: NodeId, addr: IpAddress, isValidator: bool, now: int) returns (requests: seq<ConnectRequest>)
      modifies this
      ensures (State(), requests) == UpdateStep(AddPeerState(old(State()), id, addr, isValidator, now), now)
    {
      peers := peers[id := PeerInfo(addr, isValidator, now)];
      if isValidator {
        validators := validators + {id};
      }
      requests := UpdateConnections(now);
    }

    method AddOverlay(overlay: OverlayId, now: int) returns (requests: seq<ConnectRequest>)
      modifies this
      ensures (State(), requests) == UpdateStep(AddOverlayState(old(State()), overlay), now)
    {
      overlaysToMonitor := overlaysToMonitor + {overlay};
      requests := UpdateConnections(now);
    }

    method SetMaxConnections(maxConnections: nat)
      modifies this
      ensures State() == old(State()).(maxConnections := maxConnections)
    {
      this.maxConnections := maxConnections;
    }

    /** The request connect_to_peer sends: priority by kind, and a validator
        subscribed to every monitored overlay in ascending order. */
    method ConnectToPeer(id: NodeId, addr: IpAddress, isValidator: bool) returns (req: ConnectRequest)
      ensures req == RequestFor(id, addr, isValidator, overlaysToMonitor)
      ensures isValidator ==> req.priority == U32Max && (forall o :: o in req.subscribe <==> o in overlaysToMonitor)
      ensures !isValidator ==> req.priority == 0 && req.subscribe == []
    {
      var priority := if isValidator then ValidatorPriority else 0;
      var subscribe: seq<OverlayId> := [];
      if isValidator {
        subscribe := AscendingOf(overlaysToMonitor);
      }
      req := ConnectRequest(id, addr, priority, subscribe);
    }

    method UpdateConnections(now: int) returns (requests: seq<ConnectRequest>)
      modifies this
      ensures (State(), requests) == UpdateStep(old(State()), now)
    {
      ghost var peers0 := peers;
      var order := AscendingOf(validators);
      var vRequests := ReconnectValidators(now, order);
      ghost var first := ValidatorPass(LastsOf(peers0), order, now);
      ValidatorPassSpec(LastsOf(peers0), order, now);
      LastsOfWithLasts(peers0, first.0);
      var keys := AscendingOf(peers.Keys);
      var oRequests := ReconnectOthers(now, keys, peers0, first.0);
      requests := vRequests + oRequests;
    }

    /** The first loop, over the validator ids in the given (ascending) order. */
    method ReconnectValidators(now: int, order: seq<NodeId>) returns (requests: seq<ConnectRequest>)
      modifies this
      ensures var p := ValidatorPass(LastsOf(old(peers)), order, now);
              peers == WithLasts(old(peers), p.0) &&
              requests == Requests(old(peers), p.1, true, overlaysToMonitor)
      ensures validators == old(validators) && overlaysToMonitor == old(overlaysToMonitor) &&
              maxConnections == old(maxConnections)
    {
      ghost var peers0 := peers;
      ghost var lasts0 := LastsOf(peers0);
      ghost var acc := ValidatorPass(lasts0, order[..0], now);
      requests := [];
      var i := 0;
      while i < |order|
        invariant 0 <= i <= |order|
        invariant acc == ValidatorPass(lasts0, order[..i], now)
        invariant acc.0.Keys == peers0.Keys
        invariant peers == WithLasts(peers0, acc.0)
        invariant requests == Requests(peers0, acc.1, true, overlaysToMonitor)
        invariant validators == old(validators) && overlaysToMonitor == old(overlaysToMonitor) &&
                  maxConnections == old(maxConnections)
      {
        var id := order[i];
        TakeSnoc(order, i);
        ValidatorPassSnoc(lasts0, order[..i], id, now);
        ghost var next := ValidatorPass(lasts0, order[..i + 1], now);
        assert id in peers <==> id in acc.0;
        assert id in peers ==> peers[id] == peers0[id].(lastConnectAttempt := acc.0[id]);
        if id in peers && now - peers[id].lastConnectAttempt > ConnectionResetInterval {
          assert next == (acc.0[id := now], acc.1 + [id]);
          var req := ConnectToPeer(id, peers[id].addr, true);
          RequestsAppend(peers0, acc.1, id, true, overlaysToMonitor);
          WithLastsUpdate(peers0, acc.0, id, now);
          requests := requests + [req];
          peers := peers[id := peers[id].(lastConnectAttempt := now)];
        } else {
          assert next == acc;
        }
        acc := next;
        i := i + 1;
      }
      assert order[..i] == order;
    }

    /** The second loop, over all peers in the given (ascending) id order,
        counting from the size of the validator set and stopping at the cap. */
    method ReconnectOthers(now: int, keys: seq<NodeId>, ghost peers0: map<NodeId, PeerInfo>, ghost lasts0: Lasts)
      returns (requests: seq<ConnectRequest>)
      requires lasts0.Keys == peers0.Keys && peers == WithLasts(peers0, lasts0)
      requires forall k :: k in keys ==> k in peers0
      modifies this
      ensures var p := OthersPass(lasts0, keys, validators, now, |validators|, maxConnections);
              peers == WithLasts(peers0, p.0) &&
              requests == Requests(peers0, p.1, false, overlaysToMonitor)
      ensures validators == old(validators) && overlaysToMonitor == old(overlaysToMonitor) &&
              maxConnections == old(maxConnections)
    {
      var current: nat := |validators|;
      ghost var target := OthersPass(lasts0, keys, validators, now, current, maxConnections);
      ghost var lasts := lasts0;
      ghost var ids: seq<NodeId> := [];
      requests := [];
      var j := 0;
      while j < |keys|
        invariant 0 <= j <= |keys|
        invariant lasts.Keys == peers0.Keys
        invariant peers == WithLasts(peers0, lasts)
        invariant var rest := OthersPass(lasts, keys[j..], validators, now, current, maxConnections);
                  rest.0 == target.0 && ids + rest.1 == target.1
        invariant requests == Requests(peers0, ids, false, overlaysToMonitor)
        invariant validators == old(validators) && overlaysToMonitor == old(overlaysToMonitor) &&
                  maxConnections == old(maxConnections)
      {
        var id := keys[j];
        assert keys[j..][0] == id && keys[j..][1..] == keys[j + 1..];
        assert id in peers0;
        if id in validators {
          j := j + 1;
          continue;
        }
        if current >= maxConnections {
          assert ids + [] == ids;
          assert lasts == target.0 && ids == target.1;
          break;
        }
        if now - peers[id].lastConnectAttempt > ConnectionResetInterval {
          var req := ConnectToPeer(id, peers[id].addr, false);
          RequestsAppend(peers0, ids, id, false, overlaysToMonitor);
          WithLastsUpdate(peers0, lasts, id, now);
          requests := requests + [req];
          peers := peers[id := peers[id].(lastConnectAttempt := now)];
          current := current + 1;
          ConcatAssociative(ids, [id], OthersPass(lasts[id := now], keys[j + 1..], validators, now, current, maxConnections).1);
          lasts := lasts[id := now];
          ids := ids + [id];
        }
        j := j + 1;
      }
      if j == |keys| {
        assert keys[j..] == [];
        assert ids + [] == ids;
      }
      assert lasts == target.0 && ids == target.1;
    }

    method Alarm(now: int) returns (requests: seq<ConnectRequest>)
      modifies this
      ensures (State(), requests) == UpdateStep(old(State()), now)
    {
      requests := UpdateConnections(now);
    }

    /** start_up: one DHT get_peers lookup per monitored overlay, in ascending order. */
    method StartUp() returns (lookups: seq<OverlayId>)
      ensures lookups == Ascending(overlaysToMonitor)
      ensures forall o :: o in lookups <==> o in overlaysToMonitor
      ensures |lookups| == |overlaysToMonitor|
    {
      lookups := AscendingOf(overlaysToMonitor);
    }

    /** attempt_peer_lookup's callback: a non-empty DHT address list adds the
        peer, as an ordinary one, at the first address. */
    method AttemptPeerLookup(id: NodeId, found: Option<seq<IpAddress>>, now: int) returns (requests: seq<ConnectRequest>)
      modifies this
      ensures found.Some? && found.value != [] ==>
                (State(), requests) == UpdateStep(AddPeerState(old(State()), id, found.value[0], false, now), now)
      ensures !(found.Some? && found.value != []) ==> State() == old(State()) && requests == []
    {
      requests := [];
      if found.Some? && found.value != [] {
        requests := AddPeer(id, found.value[0], false, now);
      }
    }
  }
}
