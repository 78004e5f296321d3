/** ListenerConnectionManager (listener-connection-manager-impl.cpp): the
    peer registry of the implementation file, which adds ping streaks to each
    peer, promotes and demotes peers by those streaks, reconnects on a timer
    and then sweeps out inactive peers.

    The class declaration of this variant is not part of this model, so the
    manager starts from any registry.  A connect is a Connect value (the ADNL
    add_peer call and the ping query that follows it); a ping's outcome comes
    back as the `success` input of UpdatePeerStatus.  The clock is `now` and
    rand() is the `r1`/`r2` input of DiscoverNewPeers. */
module ListenerConnections {
  import opened Common
  import opened NetworkConfig
  import opened Scheduling

  datatype PeerEntry = PeerEntry(addr: IpAddress, isValidator: bool, lastConnectAttempt: int,
                                 pingSuccessCount: nat, pingFailCount: nat)

  datatype Connect = Connect(peer: NodeId, addr: IpAddress, priority: nat)

  datatype ManagerState = ManagerState(
    peers: map<NodeId, PeerEntry>,
    validators: set<NodeId>,
    overlaysToMonitor: set<OverlayId>,
    maxConnections: nat)

  /** More successes than this promote, more failures than DemotionThreshold demote. */
  const PromotionThreshold: nat := 5
  const DemotionThreshold: nat := 3
  const GcFailThreshold: nat := 5
  const GcIdleSeconds: int := 3600
  /** discover_new_peers also asks the DHT when rand() % 100 is below this. */
  const DhtLookupPercent: nat := 20

  // ----- ping streaks

  /** update_peer_status on a known peer. */
  function StatusUpdate(e: PeerEntry, success: bool, now: int): (r: PeerEntry)
    ensures r.addr == e.addr && r.lastConnectAttempt == now
    ensures r.pingSuccessCount == 0 || r.pingFailCount == 0
  {
    if success then
      var s := e.pingSuccessCount + 1;
      e.(lastConnectAttempt := now, pingSuccessCount := s, pingFailCount := 0,
         isValidator := if s > PromotionThreshold && !e.isValidator then true else e.isValidator)
    else
      var f := e.pingFailCount + 1;
      e.(lastConnectAttempt := now, pingFailCount := f, pingSuccessCount := 0,
         isValidator := if f > DemotionThreshold && e.isValidator then false else e.isValidator)
  }

  function WithStatus(peers: map<NodeId, PeerEntry>, id: NodeId, success: bool, now: int): (r: map<NodeId, PeerEntry>)
    ensures r.Keys == peers.Keys
    ensures forall k :: k in peers && k != id ==> r[k] == peers[k]
    ensures id !in peers ==> r == peers
    ensures id in peers ==> r[id].lastConnectAttempt == now && r[id].addr == peers[id].addr
  {
    if id in peers then peers[id := StatusUpdate(peers[id], success, now)] else peers
  }

  /** A success extends the success streak and ends the fail streak, and
      promotes exactly when the new streak exceeds 5; a failure the other way
      round, demoting exactly when the new fail streak exceeds 3. */
  lemma StatusUpdateSpec(e: PeerEntry, success: bool, now: int)
    ensures var r := StatusUpdate(e, success, now);
            success ==> r.pingSuccessCount == e.pingSuccessCount + 1 && r.pingFailCount == 0 &&
                        (r.isValidator <==> e.isValidator || e.pingSuccessCount + 1 > PromotionThreshold)
    ensures var r := StatusUpdate(e, success, now);
            !success ==> r.pingFailCount == e.pingFailCount + 1 && r.pingSuccessCount == 0 &&
                         (r.isValidator <==> e.isValidator && e.pingFailCount + 1 <= DemotionThreshold)
  {
  }

  /** `k` ping results in a row, all `success`, all at time `now`. */
  function Streak(e: PeerEntry, success: bool, k: nat, now: int): PeerEntry
    decreases k
  {
    if k == 0 then e else StatusUpdate(Streak(e, success, k - 1, now), success, now)
  }

  /** From an ended success streak, a non-validator becomes one exactly on the
      6th consecutive success. */
  lemma {:induction false} PromotedOnSixthSuccess(e: PeerEntry, k: nat, now: int)
    requires e.pingSuccessCount == 0
    ensures Streak(e, true, k, now).pingSuccessCount == k
    ensures Streak(e, true, k, now).isValidator <==> e.isValidator || k >= 6
    ensures k > 0 ==> Streak(e, true, k, now).pingFailCount == 0
    decreases k
  {
    if k > 0 {
      PromotedOnSixthSuccess(e, k - 1, now);
    }
  }

  /** From an ended fail streak, a validator loses the flag exactly on the 4th
      consecutive failure. */
  lemma {:induction false} DemotedOnFourthFailure(e: PeerEntry, k: nat, now: int)
    requires e.pingFailCount == 0
    ensures Streak(e, false, k, now).pingFailCount == k
    ensures Streak(e, false, k, now).isValidator <==> e.isValidator && k < 4
    ensures k > 0 ==> Streak(e, false, k, now).pingSuccessCount == 0
    decreases k
  {
    if k > 0 {
      DemotedOnFourthFailure(e, k - 1, now);
    }
  }

  // ----- the sweep

  predicate Inactive(e: PeerEntry, now: int)
  {
    !e.isValidator && e.pingFailCount > GcFailThreshold && now - e.lastConnectAttempt > GcIdleSeconds
  }

  /** gc_inactive_peers as a map: the active entries, untouched. */
  function Swept(peers: map<NodeId, PeerEntry>, now: int): map<NodeId, PeerEntry>
  {
    map k | k in peers && !Inactive(peers[k], now) :: peers[k]
  }

  /** The ids of `keys` the sweep collects, in walk order. */
  function InactiveIds(peers: map<NodeId, PeerEntry>, keys: seq<NodeId>, now: int): (r: seq<NodeId>)
    ensures forall k :: k in r <==> k in keys && k in peers && Inactive(peers[k], now)
    decreases |keys|
  {
    if keys == [] then []
    else
      var prev := InactiveIds(peers, keys[..|keys| - 1], now);
      var id := keys[|keys| - 1];
      assert forall k :: k in keys <==> k in keys[..|keys| - 1] || k == id;
      if id in peers && Inactive(peers[id], now) then prev + [id] else prev
  }

  /** The sweep removes exactly the flagged-ordinary, failing, idle peers:
      never one flagged as validator, and the rest untouched. */
  lemma SweptSpec(peers: map<NodeId, PeerEntry>, now: int)
    ensures forall k :: k in Swept(peers, now) <==>
              k in peers && !(!peers[k].isValidator && peers[k].pingFailCount > 5 && now - peers[k].lastConnectAttempt > 3600)
    ensures forall k :: k in peers && peers[k].isValidator ==> k in Swept(peers, now)
    ensures forall k :: k in Swept(peers, now) ==> Swept(peers, now)[k] == peers[k]
    ensures Swept(Swept(peers, now), now) == Swept(peers, now)
  {
  }

  /** Removing the collected ids one by one. */
  function Without(peers: map<NodeId, PeerEntry>, ids: seq<NodeId>): map<NodeId, PeerEntry>
  {
    map k | k in peers && k !in ids :: peers[k]
  }

  lemma WithoutOneMore(peers: map<NodeId, PeerEntry>, ids: seq<NodeId>, id: NodeId)
    ensures Without(peers, ids + [id]) == Without(peers, ids) - {id}
  {
  }

  lemma WithoutInactiveIsSwept(peers: map<NodeId, PeerEntry>, ids: seq<NodeId>, now: int)
    requires forall k :: k in ids <==> k in peers && Inactive(peers[k], now)
    ensures Without(peers, ids) == Swept(peers, now)
  {
  }

  // ----- update_connections

  function PeerLasts(peers: map<NodeId, PeerEntry>): Lasts
  {
    map k | k in peers :: peers[k].lastConnectAttempt
  }

  function WithPeerLasts(peers: map<NodeId, PeerEntry>, lasts: Lasts): map<NodeId, PeerEntry>
  {
    map k | k in peers :: if k in lasts then peers[k].(lastConnectAttempt := lasts[k]) else peers[k]
  }

  lemma WithPeerLastsUpdate(peers: map<NodeId, PeerEntry>, lasts: Lasts, id: NodeId, now: int)
    requires id in peers
    ensures WithPeerLasts(peers, lasts[id := now]) == WithPeerLasts(peers, lasts)[id := peers[id].(lastConnectAttempt := now)]
  {
  }

  lemma PeerLastsRoundTrip(peers: map<NodeId, PeerEntry>, lasts: Lasts)
    requires lasts.Keys == peers.Keys
    ensures PeerLasts(WithPeerLasts(peers, lasts)) == lasts
    ensures WithPeerLasts(peers, lasts).Keys == peers.Keys
  {
  }

  /** connect_to_peer's call for one peer: the uint32 maximum for a validator, 0 otherwise. */
  function ConnectFor(id: NodeId, addr: IpAddress, isValidator: bool): (c: Connect)
    ensures isValidator <==> c.priority == U32Max
    ensures c.priority < TwoTo32 && (!isValidator ==> c.priority == 0)
  {
    Connect(id, addr, PriorityFor(isValidator))
  }

  function Connects(peers: map<NodeId, PeerEntry>, ids: seq<NodeId>, isValidator: bool): (r: seq<Connect>)
    ensures |r| == |ids|
    ensures forall i :: 0 <= i < |ids| ==>
              r[i].peer == ids[i] && r[i].priority == PriorityFor(isValidator) &&
              (ids[i] in peers ==> r[i].addr == peers[ids[i]].addr)
    decreases |ids|
  {
    if ids == [] then []
    else
      var id := ids[|ids| - 1];
      Connects(peers, ids[..|ids| - 1], isValidator) +
      [ConnectFor(id, if id in peers then peers[id].addr else IpAddress(0, 0), isValidator)]
  }

  lemma ConnectsAppend(peers: map<NodeId, PeerEntry>, ids: seq<NodeId>, id: NodeId, isValidator: bool)
    requires id in peers
    ensures Connects(peers, ids + [id], isValidator) ==
            Connects(peers, ids, isValidator) + [ConnectFor(id, peers[id].addr, isValidator)]
  {
    assert (ids + [id])[..|ids|] == ids;
  }

  /** update_connections: the schedule, its connects, then the sweep. */
  ghost function UpdateStep(st: ManagerState, now: int): (ManagerState, seq<Connect>)
  {
    var s := Schedule(PeerLasts(st.peers), st.validators, st.maxConnections, now);
    (st.(peers := Swept(WithPeerLasts(st.peers, s.0), now)),
     Connects(st.peers, s.1, true) + Connects(st.peers, s.2, false))
  }

  /** Every due validator known as a peer is connected at the uint32 maximum,
      whatever the cap. */
  lemma UpdateConnectsDueValidators(st: ManagerState, now: int, id: NodeId)
    requires id in st.validators && id in st.peers && Due(st.peers[id].lastConnectAttempt, now)
    ensures exists i :: 0 <= i < |UpdateStep(st, now).1| &&
              UpdateStep(st, now).1[i] == Connect(id, st.peers[id].addr, U32Max)
  {
    var s := Schedule(PeerLasts(st.peers), st.validators, st.maxConnections, now);
    ScheduleSpec(PeerLasts(st.peers), st.validators, st.maxConnections, now);
    assert id in s.1;
    var i :| 0 <= i < |s.1| && s.1[i] == id;
    assert UpdateStep(st, now).1[i] == Connects(st.peers, s.1, true)[i];
  }

  /** A peer that no connect of update_connections names is not in the
      schedule's second list. */
  lemma UnconnectedNotScheduled(st: ManagerState, now: int, id: NodeId)
    requires forall i :: 0 <= i < |UpdateStep(st, now).1| ==> UpdateStep(st, now).1[i].peer != id
    ensures id !in Schedule(PeerLasts(st.peers), st.validators, st.maxConnections, now).2
  {
    var s := Schedule(PeerLasts(st.peers), st.validators, st.maxConnections, now);
    var a := Connects(st.peers, s.1, true);
    var b := Connects(st.peers, s.2, false);
    assert UpdateStep(st, now).1 == a + b;
    forall j | 0 <= j < |s.2|
      ensures s.2[j] != id
    {
      assert (a + b)[|a| + j] == b[j];
    }
  }

  /** A due peer outside the validator set that gets no connect was reached
      only once the others had used up max - |validators| places. */
  lemma UpdateLeavesOutOnlyAtCap(st: ManagerState, now: int, id: NodeId)
    requires id in st.peers && id !in st.validators && Due(st.peers[id].lastConnectAttempt, now)
    requires forall i :: 0 <= i < |UpdateStep(st, now).1| ==> UpdateStep(st, now).1[i].peer != id
    ensures |st.validators| + (|UpdateStep(st, now).1| - |Schedule(PeerLasts(st.peers), st.validators, st.maxConnections, now).1|)
              >= st.maxConnections
  {
    UnconnectedNotScheduled(st, now, id);
    assert PeerLasts(st.peers)[id] == st.peers[id].lastConnectAttempt;
    ScheduleLeavesOutOnlyAtCap(PeerLasts(st.peers), st.validators, st.maxConnections, now, id);
  }

  /** Priority follows membership of the validator set, not the promotion
      flag; other peers are connected only when due, and at most
      max - |validators| of them. */
  lemma UpdatePriorityFollowsValidatorSet(st: ManagerState, now: int)
    ensures var s := Schedule(PeerLasts(st.peers), st.validators, st.maxConnections, now);
            var r := UpdateStep(st, now).1;
            |s.2| <= (if st.maxConnections > |st.validators| then st.maxConnections - |st.validators| else 0) &&
            (forall i :: 0 <= i < |r| ==> (r[i].priority == U32Max <==> r[i].peer in st.validators)) &&
            (forall i :: 0 <= i < |r| ==> r[i].peer in st.peers) &&
            (forall i :: 0 <= i < |r| && r[i].peer !in st.validators ==> Due(st.peers[r[i].peer].lastConnectAttempt, now))
    ensures var s := Schedule(PeerLasts(st.peers), st.validators, st.maxConnections, now);
            var r := UpdateStep(st, now).1;
            forall id :: id in st.peers && id !in st.validators && Due(st.peers[id].lastConnectAttempt, now) &&
                         (forall i :: 0 <= i < |r| ==> r[i].peer != id) ==>
                           |st.validators| + (|r| - |s.1|) >= st.maxConnections
  {
    var s := Schedule(PeerLasts(st.peers), st.validators, st.maxConnections, now);
    ScheduleSpec(PeerLasts(st.peers), st.validators, st.maxConnections, now);
    var r := UpdateStep(st, now).1;
    var a := Connects(st.peers, s.1, true);
    var b := Connects(st.peers, s.2, false);
    assert r == a + b;
    forall i | 0 <= i < |r|
      ensures (r[i].priority == U32Max <==> r[i].peer in st.validators) && r[i].peer in st.peers &&
              (r[i].peer !in st.validators ==> Due(st.peers[r[i].peer].lastConnectAttempt, now))
    {
      if i < |a| {
        assert r[i] == a[i];
        assert s.1[i] in s.1;
      } else {
        assert r[i] == b[i - |a|];
        assert s.2[i - |a|] in s.2;
      }
    }
    forall id | id in st.peers && id !in st.validators && Due(st.peers[id].lastConnectAttempt, now) &&
                (forall i :: 0 <= i < |r| ==> r[i].peer != id)
      ensures |st.validators| + (|r| - |s.1|) >= st.maxConnections
    {
      UpdateLeavesOutOnlyAtCap(st, now, id);
    }
  }

  /** The sweep that ends update_connections never removes a peer that the
      same call connected, nor any peer of the validator set: a due one has
      just been stamped `now`, one not due has not been idle for an hour. */
  lemma SweepSparesValidatorSet(st: ManagerState, now: int)
    ensures var s := Schedule(PeerLasts(st.peers), st.validators, st.maxConnections, now);
            var p := UpdateStep(st, now).0.peers;
            (forall id :: id in st.peers && id in st.validators ==> id in p) &&
            (forall id :: id in s.1 || id in s.2 ==> id in p && p[id].lastConnectAttempt == now)
    ensures var p := UpdateStep(st, now).0.peers;
            forall id :: id in p ==> id in st.peers && p[id].addr == st.peers[id].addr
  {
    var lasts := PeerLasts(st.peers);
    var s := Schedule(lasts, st.validators, st.maxConnections, now);
    ScheduleSpec(lasts, st.validators, st.maxConnections, now);
  }

  // ----- the manager

  class ListenerConnectionManager {
    var peers: map<NodeId, PeerEntry>
    var validators: set<NodeId>
    var overlaysToMonitor: set<OverlayId>
    var maxConnections: nat

    function State(): ManagerState
      reads this
    {
      ManagerState(peers, validators, overlaysToMonitor, maxConnections)
    }

    constructor (st: ManagerState)
      ensures State() == st
    {
      peers := st.peers;
      validators := st.validators;
      overlaysToMonitor := st.overlaysToMonitor;
      maxConnections := st.maxConnections;
    }

    method UpdatePeerStatus(id: NodeId, success: bool, now: int)
      modifies this
      ensures State() == old(State()).(peers := WithStatus(old(peers), id, success, now))
    {
      if id in peers {
        var e := peers[id];
        e := e.(lastConnectAttempt := now);
        if success {
          e := e.(pingSuccessCount := e.pingSuccessCount + 1, pingFailCount := 0);
          if e.pingSuccessCount > PromotionThreshold && !e.isValidator {
            e := e.(isValidator := true);
          }
        } else {
          e := e.(pingFailCount := e.pingFailCount + 1, pingSuccessCount := 0);
          if e.pingFailCount > DemotionThreshold && e.isValidator {
            e := e.(isValidator := false);
          }
        }
        peers := peers[id := e];
      }
    }

    method ConnectToPeer(id: NodeId, addr: IpAddress, isValidator: bool) returns (c: Connect)
      ensures c == ConnectFor(id, addr, isValidator)
    {
      var priority := if isValidator then ValidatorPriority else 0;
      c := Connect(id, addr, priority);
    }

    method UpdateConnections(now: int) returns (connects: seq<Connect>)
      modifies this
      ensures (State(), connects) == UpdateStep(old(State()), now)
    {
      ghost var peers0 := peers;
      var order := AscendingOf(validators);
      var first := ReconnectValidators(now, order);
      ghost var pass := ValidatorPass(PeerLasts(peers0), order, now);
      ValidatorPassSpec(PeerLasts(peers0), order, now);
      PeerLastsRoundTrip(peers0, pass.0);
      var keys := AscendingOf(peers.Keys);
      var second := ReconnectOthers(now, keys, peers0, pass.0);
      connects := first + second;
      GcInactivePeers(now);
    }

    /** The first loop, over the validator set in the given (ascending) order. */
    method ReconnectValidators(now: int, order: seq<NodeId>) returns (connects: seq<Connect>)
      modifies this
      ensures var p := ValidatorPass(PeerLasts(old(peers)), order, now);
              peers == WithPeerLasts(old(peers), p.0) && connects == Connects(old(peers), p.1, true)
      ensures validators == old(validators) && overlaysToMonitor == old(overlaysToMonitor) &&
              maxConnections == old(maxConnections)
    {
      ghost var peers0 := peers;
      ghost var lasts0 := PeerLasts(peers0);
      ghost var acc := ValidatorPass(lasts0, order[..0], now);
      connects := [];
      var i := 0;
      while i < |order|
        invariant 0 <= i <= |order|
        invariant acc == ValidatorPass(lasts0, order[..i], now)
        invariant acc.0.Keys == peers0.Keys
        invariant peers == WithPeerLasts(peers0, acc.0)
        invariant connects == Connects(peers0, acc.1, true)
        invariant validators == old(validators) && overlaysToMonitor == old(overlaysToMonitor) &&
                  maxConnections == old(maxConnections)
      {
        var id := order[i];
        TakeSnoc(order, i);
        ValidatorPassSnoc(lasts0, order[..i], id, now);
        ghost var next := ValidatorPass(lasts0, order[..i + 1], now);
        assert id in peers <==> id in acc.0;
        assert id in peers ==> peers[id] == peers0[id].(lastConnectAttempt := acc.0[id]);
        if id in peers && now - peers[id].lastConnectAttempt > ConnectionResetInterval {
          assert next == (acc.0[id := now], acc.1 + [id]);
          var c := ConnectToPeer(id, peers[id].addr, true);
          ConnectsAppend(peers0, acc.1, id, true);
          WithPeerLastsUpdate(peers0, acc.0, id, now);
          connects := connects + [c];
          peers := peers[id := peers[id].(lastConnectAttempt := now)];
        } else {
          assert next == acc;
        }
        acc := next;
        i := i + 1;
      }
      assert order[..i] == order;
    }

    /** The second loop, over the peers in the given (ascending) id order,
        counting from the size of the validator set and stopping at the cap. */
    method ReconnectOthers(now: int, keys: seq<NodeId>, ghost peers0: map<NodeId, PeerEntry>, ghost lasts0: Lasts)
      returns (connects: seq<Connect>)
      requires lasts0.Keys == peers0.Keys && peers == WithPeerLasts(peers0, lasts0)
      requires forall k :: k in keys ==> k in peers0
      modifies this
      ensures var p := OthersPass(lasts0, keys, validators, now, |validators|, maxConnections);
              peers == WithPeerLasts(peers0, p.0) && connects == Connects(peers0, p.1, false)
      ensures validators == old(validators) && overlaysToMonitor == old(overlaysToMonitor) &&
              maxConnections == old(maxConnections)
    {
      var current: nat := |validators|;
      ghost var target := OthersPass(lasts0, keys, validators, now, current, maxConnections);
      ghost var lasts := lasts0;
      ghost var ids: seq<NodeId> := [];
      connects := [];
      var j := 0;
      while j < |keys|
        invariant 0 <= j <= |keys|
        invariant lasts.Keys == peers0.Keys
        invariant peers == WithPeerLasts(peers0, lasts)
        invariant var rest := OthersPass(lasts, keys[j..], validators, now, current, maxConnections);
                  rest.0 == target.0 && ids + rest.1 == target.1
        invariant connects == Connects(peers0, ids, false)
        invariant validators == old(validators) && overlaysToMonitor == old(overlaysToMonitor) &&
                  maxConnections == old(maxConnections)
      {
        var id := keys[j];
        assert keys[j..][0] == id && keys[j..][1..] == keys[j + 1..];
        assert id in peers0;
        if id in validators {
          j := j + 1;
          continue;
        }
        if current >= maxConnections {
          assert ids + [] == ids;
          assert lasts == target.0 && ids == target.1;
          break;
        }
        if now - peers[id].lastConnectAttempt > ConnectionResetInterval {
          var c := ConnectToPeer(id, peers[id].addr, false);
          ConnectsAppend(peers0, ids, id, false);
          WithPeerLastsUpdate(peers0, lasts, id, now);
          connects := connects + [c];
          peers := peers[id := peers[id].(lastConnectAttempt := now)];
          current := current + 1;
          ConcatAssociative(ids, [id], OthersPass(lasts[id := now], keys[j + 1..], validators, now, current, maxConnections).1);
          lasts := lasts[id := now];
          ids := ids + [id];
        }
        j := j + 1;
      }
      if j == |keys| {
        assert keys[j..] == [];
        assert ids + [] == ids;
      }
      assert lasts == target.0 && ids == target.1;
    }

    /** The first loop of gc_inactive_peers: the ids to remove, in ascending order. */
    method CollectInactive(now: int) returns (toRemove: seq<NodeId>)
      ensures toRemove == InactiveIds(peers, Ascending(peers.Keys), now)
      ensures forall k :: k in toRemove <==> k in peers && Inactive(peers[k], now)
    {
      var keys := AscendingOf(peers.Keys);
      toRemove := [];
      var i := 0;
      while i < |keys|
        invariant 0 <= i <= |keys|
        invariant toRemove == InactiveIds(peers, keys[..i], now)
      {
        var id := keys[i];
        TakeSnoc(keys, i);
        if Inactive(peers[id], now) {
          toRemove := toRemove + [id];
        }
        i := i + 1;
      }
      assert keys[..i] == keys;
    }

    method GcInactivePeers(now: int)
      modifies this
      ensures State() == old(State()).(peers := Swept(old(peers), now))
    {
      var toRemove := CollectInactive(now);
      WithoutInactiveIsSwept(peers, toRemove, now);
      RemovePeers(toRemove);
    }

    /** The second loop of gc_inactive_peers: erase each collected id. */
    method RemovePeers(toRemove: seq<NodeId>)
      modifies this
      ensures State() == old(State()).(peers := Without(old(peers), toRemove))
    {
      for i := 0 to |toRemove|
        invariant peers == Without(old(peers), toRemove[..i])
        invariant validators == old(validators) && overlaysToMonitor == old(overlaysToMonitor) &&
                  maxConnections == old(maxConnections)
      {
        TakeSnoc(toRemove, i);
        WithoutOneMore(old(peers), toRemove[..i], toRemove[i]);
        peers := peers - {toRemove[i]};
      }
      assert toRemove[..|toRemove|] == toRemove;
    }

    /** discover_new_peers' choice: nothing without overlays; otherwise the
        overlay at index r1 % size in ascending order, and whether the DHT is
        asked as well. */
    method DiscoverNewPeers(r1: nat, r2: nat) returns (choice: Option<(OverlayId, bool)>)
      ensures choice.None? <==> overlaysToMonitor == {}
      ensures choice.Some? ==>
                choice.value.0 in overlaysToMonitor &&
                choice.value.0 == Ascending(overlaysToMonitor)[r1 % |overlaysToMonitor|] &&
                (choice.value.1 <==> r2 % 100 < DhtLookupPercent)
    {
      if overlaysToMonitor == {} {
        return None;
      }
      var index := r1 % |overlaysToMonitor|;
      var order := AscendingOf(overlaysToMonitor);
      var overlay := order[index];
      choice := Some((overlay, r2 % 100 < DhtLookupPercent));
    }

    /** alarm: update_connections, then discover_new_peers. */
    method Alarm(now: int, r1: nat, r2: nat) returns (connects: seq<Connect>, choice: Option<(OverlayId, bool)>)
      modifies this
      ensures (State(), connects) == UpdateStep(old(State()), now)
      ensures choice.None? <==> overlaysToMonitor == {}
      ensures choice.Some? ==> choice.value.0 in overlaysToMonitor && (choice.value.1 <==> r2 % 100 < DhtLookupPercent)
    {
      connects := UpdateConnections(now);
      choice := DiscoverNewPeers(r1, r2);
    }
  }
}
