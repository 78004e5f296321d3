/** The reconnection schedule that both connection managers run in
    update_connections, on the last-connect-attempt times of their peers.

    First every id of the privileged set, in ascending order, whose peer is
    known and has not been tried for more than CONNECTION_RESET_INTERVAL is
    reconnected, with no cap.  Then the remaining peers, in ascending id order, are reconnected
    when due, while a counter that starts at the size of the privileged set
    stays below the connection cap; the first time the cap is reached the
    walk stops. */
module Scheduling {
  import opened Common
  import opened NetworkConfig

  /** Last connect attempt per peer. */
  type Lasts = map<NodeId, int>

  predicate Due(last: int, now: int)
  {
    now - last > ConnectionResetInterval
  }

  ghost predicate Distinct(s: seq<NodeId>)
  {
    forall i, j :: 0 <= i < j < |s| ==> s[i] != s[j]
  }

  /** The first loop over `order`: the new times and the ids connected, in order. */
  function ValidatorPass(lasts: Lasts, order: seq<NodeId>, now: int): (Lasts, seq<NodeId>)
    decreases |order|
  {
    if order == [] then (lasts, [])
    else
      var prev := ValidatorPass(lasts, order[..|order| - 1], now);
      var id := order[|order| - 1];
      if id in prev.0 && Due(prev.0[id], now) then (prev.0[id := now], prev.1 + [id]) else prev
  }

  /** The second loop over `keys`, starting with `current` connections counted. */
  function OthersPass(lasts: Lasts, keys: seq<NodeId>, privileged: set<NodeId>, now: int,
                      current: nat, cap: nat): (Lasts, seq<NodeId>)
    decreases |keys|
  {
    if keys == [] then (lasts, [])
    else if keys[0] in privileged then OthersPass(lasts, keys[1..], privileged, now, current, cap)
    else if current >= cap then (lasts, [])
    else if keys[0] in lasts && Due(lasts[keys[0]], now) then
      var rest := OthersPass(lasts[keys[0] := now], keys[1..], privileged, now, current + 1, cap);
      (rest.0, [keys[0]] + rest.1)
    else OthersPass(lasts, keys[1..], privileged, now, current, cap)
  }

  /** Both loops, over the ascending orders of the privileged set and of the peers. */
  ghost function Schedule(lasts: Lasts, privileged: set<NodeId>, cap: nat, now: int): (Lasts, seq<NodeId>, seq<NodeId>)
  {
    var first := ValidatorPass(lasts, Ascending(privileged), now);
    var second := OthersPass(first.0, Ascending(first.0.Keys), privileged, now, |privileged|, cap);
    (second.0, first.1, second.1)
  }

  // ----- the privileged pass

  /** One more id at the end of the order is one more step of the loop. */
  lemma ValidatorPassSnoc(lasts: Lasts, order: seq<NodeId>, id: NodeId, now: int)
    ensures var prev := ValidatorPass(lasts, order, now);
            ValidatorPass(lasts, order + [id], now) ==
              if id in prev.0 && Due(prev.0[id], now) then (prev.0[id := now], prev.1 + [id]) else prev
  {
    assert (order + [id])[..|order|] == order;
  }

  /** Each privileged id whose peer is known and due is connected, whatever the
      cap (the pass does not even see it); nothing else is, none twice, and
      exactly the connected ones get the new time. */
  lemma {:induction false} ValidatorPassSpec(lasts: Lasts, order: seq<NodeId>, now: int)
    requires Distinct(order)
    ensures var r := ValidatorPass(lasts, order, now);
            r.0.Keys == lasts.Keys &&
            Distinct(r.1) &&
            (forall id :: id in r.1 <==> id in order && id in lasts && Due(lasts[id], now)) &&
            (forall id :: id in lasts ==> r.0[id] == if id in r.1 then now else lasts[id])
    decreases |order|
  {
    if order != [] {
      var init := order[..|order| - 1];
      assert Distinct(init);
      ValidatorPassSpec(lasts, init, now);
      var id := order[|order| - 1];
      assert id !in init;
      var prev := ValidatorPass(lasts, init, now);
      assert id !in prev.1;
      forall x ensures x in order <==> x in init || x == id {
        if x in order {
          var k :| 0 <= k < |order| && order[k] == x;
          if k < |order| - 1 { assert init[k] == x; }
        }
      }
    }
  }

  // ----- the capped pass

  /** At most cap - current connections (none when the counter has reached the cap). */
  lemma {:induction false} OthersPassBound(lasts: Lasts, keys: seq<NodeId>, privileged: set<NodeId>, now: int,
                                           current: nat, cap: nat)
    ensures |OthersPass(lasts, keys, privileged, now, current, cap).1| <= if cap > current then cap - current else 0
    decreases |keys|
  {
    if keys != [] {
      if keys[0] in privileged {
        OthersPassBound(lasts, keys[1..], privileged, now, current, cap);
      } else if current < cap {
        if keys[0] in lasts && Due(lasts[keys[0]], now) {
          OthersPassBound(lasts[keys[0] := now], keys[1..], privileged, now, current + 1, cap);
        } else {
          OthersPassBound(lasts, keys[1..], privileged, now, current, cap);
        }
      }
    }
  }

  /** Only due, known, unprivileged peers of the walk are connected, each once,
      and exactly those get the new time. */
  lemma {:induction false} OthersPassSpec(lasts: Lasts, keys: seq<NodeId>, privileged: set<NodeId>, now: int,
                                          current: nat, cap: nat)
    requires Distinct(keys)
    ensures var r := OthersPass(lasts, keys, privileged, now, current, cap);
            r.0.Keys == lasts.Keys &&
            Distinct(r.1) &&
            (forall id :: id in r.1 ==> id in keys && id !in privileged && id in lasts && Due(lasts[id], now)) &&
            (forall id :: id in lasts ==> r.0[id] == if id in r.1 then now else lasts[id])
    decreases |keys|
  {
    if keys != [] {
      var k := keys[0];
      var tail := keys[1..];
      assert Distinct(tail);
      assert k !in tail;
      if k in privileged {
        OthersPassSpec(lasts, tail, privileged, now, current, cap);
      } else if current < cap {
        if k in lasts && Due(lasts[k], now) {
          var l' := lasts[k := now];
          OthersPassSpec(l', tail, privileged, now, current + 1, cap);
          var rest := OthersPass(l', tail, privileged, now, current + 1, cap);
          assert k !in rest.1;
          forall id | id in rest.1
            ensures id in lasts && Due(lasts[id], now)
          {
            assert id != k;
          }
        } else {
          OthersPassSpec(lasts, tail, privileged, now, current, cap);
        }
      }
    }
  }

  /** The walk skips no due peer before it stops: a due, known, unprivileged
      peer of the walk that is not connected was reached only after the
      counter had come to the cap. */
  lemma {:induction false} OthersPassComplete(lasts: Lasts, keys: seq<NodeId>, privileged: set<NodeId>, now: int,
                                              current: nat, cap: nat, id: NodeId)
    requires Distinct(keys)
    ensures var r := OthersPass(lasts, keys, privileged, now, current, cap);
            id in keys && id !in privileged && id in lasts && Due(lasts[id], now) && id !in r.1 ==>
              current + |r.1| >= cap
    decreases |keys|
  {
    if keys != [] {
      var k := keys[0];
      var tail := keys[1..];
      assert Distinct(tail);
      assert id in keys && id != k ==> id in tail;
      if k in privileged {
        OthersPassComplete(lasts, tail, privileged, now, current, cap, id);
      } else if current < cap {
        if k in lasts && Due(lasts[k], now) {
          OthersPassComplete(lasts[k := now], tail, privileged, now, current + 1, cap, id);
        } else {
          OthersPassComplete(lasts, tail, privileged, now, current, cap, id);
        }
      }
    }
  }

  // ----- both passes

  /** update_connections' schedule: privileged due peers all reconnected; the
      others limited to cap - |privileged|, and every due one left out only once
      that limit is used up; everyone connected stamped `now`. */
  lemma ScheduleSpec(lasts: Lasts, privileged: set<NodeId>, cap: nat, now: int)
    ensures var s := Schedule(lasts, privileged, cap, now);
            s.0.Keys == lasts.Keys &&
            (forall id :: id in s.1 <==> id in privileged && id in lasts && Due(lasts[id], now)) &&
            |s.2| <= (if cap > |privileged| then cap - |privileged| else 0) &&
            (forall id :: id in s.2 ==> id !in privileged && id in lasts && Due(lasts[id], now)) &&
            (forall id {:trigger Due(lasts[id], now)} :: id !in privileged && id in lasts && Due(lasts[id], now) && id !in s.2 ==>
               |privileged| + |s.2| >= cap) &&
            (forall id :: id in lasts ==> s.0[id] == if id in s.1 || id in s.2 then now else lasts[id])
  {
    var order := Ascending(privileged);
    assert Distinct(order);
    ValidatorPassSpec(lasts, order, now);
    var first := ValidatorPass(lasts, order, now);
    var keys := Ascending(first.0.Keys);
    assert Distinct(keys);
    OthersPassSpec(first.0, keys, privileged, now, |privileged|, cap);
    OthersPassBound(first.0, keys, privileged, now, |privileged|, cap);
    var second := OthersPass(first.0, keys, privileged, now, |privileged|, cap);
    forall id | id in second.1
      ensures id in lasts && Due(lasts[id], now)
    {
      assert id !in first.1;
    }
    forall id | id !in privileged && id in lasts && Due(lasts[id], now) && id !in second.1
      ensures |privileged| + |second.1| >= cap
    {
      assert id !in first.1 && first.0[id] == lasts[id];
      assert id in keys;
      OthersPassComplete(first.0, keys, privileged, now, |privileged|, cap, id);
    }
  }

  /** One due, unprivileged peer that neither pass connects: the second pass
      stopped at the cap before reaching it. */
  lemma ScheduleLeavesOutOnlyAtCap(lasts: Lasts, privileged: set<NodeId>, cap: nat, now: int, id: NodeId)
    requires id !in privileged && id in lasts && Due(lasts[id], now)
    requires id !in Schedule(lasts, privileged, cap, now).2
    ensures |privileged| + |Schedule(lasts, privileged, cap, now).2| >= cap
  {
    ScheduleSpec(lasts, privileged, cap, now);
  }

  /** A peer whose time is `now` (one just added) is connected by neither pass. */
  lemma FreshPeerNotScheduled(lasts: Lasts, privileged: set<NodeId>, cap: nat, now: int, id: NodeId)
    requires id in lasts && lasts[id] == now
    ensures id !in Schedule(lasts, privileged, cap, now).1
    ensures id !in Schedule(lasts, privileged, cap, now).2
  {
    ScheduleSpec(lasts, privileged, cap, now);
  }
}
