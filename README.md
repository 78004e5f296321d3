# TON listener head — a Dafny model

This project models the core of a listen-only TON node, the "listener head".
The node joins the block overlays of the masterchain and the basechain. It
records every block announcement it hears, but it validates nothing and keeps
no state of the chain. The model covers these parts:

- **Reception tracker** (`BlockReceptionTracker`). It keeps the latest record
  per block id, a history capped at 10 000 entries, a received counter and a
  smoothed (α = 0.1) average of the processing time. It answers "recent
  blocks" queries and can purge old entries.
- **Listener head manager, header variant.** Three entry points, each with its
  own counter, feed one tracker. The manager also keeps the set of monitored
  overlays.
- **Listener head manager, overlay implementation.** It sorts decoded overlay
  messages into tracker calls and subscribes to the default overlays at
  start-up. After five minutes without new blocks it subscribes to every
  monitored overlay again, and `stop_listening` unsubscribes from them.
- **Two connection managers.** The model gives both the same two-pass
  reconnection schedule, with the constants of `NetworkOptimizationConfig`
  (see "## Left out" for the implementation's `NetworkConfig::`).
  Validators are reconnected first and without a cap. Other peers are then
  reconnected up to the connection cap. The implementation variant adds ping
  streaks, promotion, demotion, a sweep of inactive peers and random peer
  discovery.
- **Validator-side manager.** This `ValidatorManagerInterface` records blocks
  in a bounded map with a FIFO of ids, hands out block handles, forwards
  blocks to an installed callback and prepares its stats.
- **Configuration readers.** These cover the global-config parser (static DHT
  nodes, liteservers, default overlay ids) and `ListenerConfig::from_json`.
  JSON decoding is an input.
- **HTTP stats server.** It routes a URL to three JSON reports or answers 404.
- **ADNL channel factory.** It derives a channel's two AES keys from the
  Ed25519 shared secret.

The state-changing parts are classes whose methods are proved against pure
step functions. These are `Track`/`ClearOld`, `Process`, `Record`,
`UpdateStep`, `ConnectionCheck`, `StatusUpdate` and the `…Tracks`
functions. The properties are lemmas about those functions.

Foreign code becomes an input:
- the clock is a `now` parameter in seconds, or `nowMs` in the validator's
  milliseconds;
- `rand()` values are inputs;
- TL and BlockQ decoding results are `Option` or `BlockQOutcome` inputs;
- Ed25519, AES short ids, base64 and IPv4 initialisation are fields of an
  environment.

Integer narrowing is written out explicitly. This covers `size_t` to
`td::uint32` (`NarrowToU32`), `to_integer<int32>` (`ToInt32`), the cast to
`uint16` (`ToUint16`) and the cast to `int64` (`ToInt64`).

Both managers iterate `std::set` and `std::map` in ascending key order.
`Common.Ascending` computes that order and `Common.AscendingOf` is its method.

Three behaviours of the code that are easy to misread, which the model follows:

- The implementation's `connect_to_peer` and `update_connections` choose the
  priority by membership of `validators_`. The promotion flag that
  `update_peer_status` sets is read only by the sweep.
- The implementation's `check_connection_status` compares `blocks_received_`,
  but none of the implementation's handlers raise it. So after the first
  check, the only thing that moves its state is the five-minute timer.
- `start_listening` in the implementation builds both default overlay keys
  from the masterchain id's root hash. `extract_default_overlay_ids` does the
  same. In the parser, that variable is out of scope at that point; the model
  reads it as the masterchain's root hash, as `start_listening` does. Both
  root hashes are zero, so the two default overlays are one overlay.

## Model

| member | source | states |
|---|---|---|
| Common.NarrowToU32 | validator/listener-head-manager.cpp:189 | A `size_t` stored into a `td::uint32` field is the value modulo 2^32: below 2^32, differs from the input by a multiple of 2^32, and equals it when it fits. |
| Common.NatToDecimal | validator/listener-head-manager.cpp:495-496 | `std::to_string` of a count: at least one character, all decimal digits, no leading zero. |
| Common.DecimalRoundTrip | validator/listener-head-manager.cpp:495-496 | Reading the decimal text back gives the number: the rendering loses nothing. |
| Common.AscendingOf | listener-head/listener-connection-manager.hpp:51 | The iteration order of a `std::set`/`std::map`: every element once, nothing else, strictly increasing. |
| NetworkConfig.PriorityFor | listener-head/listener-connection-manager.hpp:84 | The connect priority is the uint32 maximum exactly for a validator and 0 otherwise, and always fits 32 bits. |
| NetworkConfig.ConstantsAgree | listener-head/listener-network-config.hpp:9-16 | The configured limits: 1000 outbound < 5000 inbound, a 10 MiB UDP buffer, priority 2^32 − 1, a 3600 s reset interval, min heartbeat ≤ max. |
| ReceptionTracking.NewestFirstSpec | listener-head/block-reception-tracker.hpp:53-65 | `get_recent_blocks_stats(limit)` returns min(limit, size) records (none for limit ≤ 0), newest first: entry i is the i-th from the back; with a large limit it is the whole history reversed. |
| ReceptionTracking.Track | listener-head/block-reception-tracker.hpp:28-51 | Defines `track_block_received`: the index entry for the id is overwritten, the record is appended and the oldest entry is popped past 10 000 (the index is not trimmed). The counter and average are then updated as `update_stats` does. Its properties are `TrackStep`, `EvictionSparesIndex` and `TrackSmoothsAverage`. |
| ReceptionTracking.Lookup | listener-head/block-reception-tracker.hpp:67-74 | Defines `get_block_stats`: the indexed record, or the default-constructed one when the id is absent. See `LookupNeverTracked` and `LookupIsTracked`. |
| ReceptionTracking.ClearOld | listener-head/block-reception-tracker.hpp:86-98 | Defines `clear_old_blocks`: the index loses the ids of the entries that are dropped, the history keeps the rest in order, and the counter and average are kept. See `KeptExactly`, `EvictedIdsExactly` and `ClearOldKeepsAggregates`. |
| ReceptionTracking.NewestFirst | listener-head/block-reception-tracker.hpp:53-65 | Defines `get_recent_blocks_stats`: the reversed history cut to min(limit, size). See `NewestFirstSpec`. |
| ReceptionTracking.TrackEvictingIndex | listener-head/block-reception-tracker.hpp:42-50 | Corrected `track_block_received`: eviction also erases the evicted id unless a newer entry still carries it. See `TrackEvictingIndexBounded`. |
| ReceptionTracking.TrackStep | listener-head/block-reception-tracker.hpp:28-51 | One track call keeps the history within 10 000, raises the counter by exactly one, appends the record, makes it what a lookup of its id returns, and leaves every other id's lookup unchanged. |
| ReceptionTracking.EvictionSparesIndex | listener-head/block-reception-tracker.hpp:42-50 | At capacity the oldest history entry is dropped. The index only gains the new id and keeps the evicted one. |
| ReceptionTracking.TrackSmoothsAverage | listener-head/block-reception-tracker.hpp:101-109 | Each record moves the average a tenth of the way to its processing time: avg' = 0.1·t + 0.9·avg. |
| ReceptionTracking.TrackAllCounts | listener-head/block-reception-tracker.hpp:28-51 | Over any run of calls the counter rises by the number of calls and the history stays capped. |
| ReceptionTracking.LookupNeverTracked | listener-head/block-reception-tracker.hpp:67-74 | An id that no call carried is answered with the default-constructed record. |
| ReceptionTracking.IndexGrowsWithDistinctIds | listener-head/block-reception-tracker.hpp:42 | With pairwise-distinct ids the index holds one entry per call and contains every tracked id. |
| ReceptionTracking.LookupIsTracked | listener-head/block-reception-tracker.hpp:42 | Every index key of a run from an empty tracker was carried by some call. |
| ReceptionTracking.IndexExceedsCap | listener-head/block-reception-tracker.hpp:42-50 | As written: 10 001 distinct blocks leave 10 001 index entries beside a history of at most 10 000. |
| ReceptionTracking.TrackEvictingIndexBounded | listener-head/block-reception-tracker.hpp:42-50 | Corrected: when eviction also erases the evicted id (unless it recurs in the history), the index keys stay equal to the history's ids, the index stays within 10 000, and the new record is what a lookup returns. |
| ReceptionTracking.KeptExactly | listener-head/block-reception-tracker.hpp:86-98 | `clear_old_blocks` keeps exactly the history entries received at or after the cutoff, and keeps all of them when none is older. |
| ReceptionTracking.EvictedIdsExactly | listener-head/block-reception-tracker.hpp:89-97 | The index keys erased are exactly the ids of the entries dropped. |
| ReceptionTracking.ClearOldKeepsAggregates | listener-head/block-reception-tracker.hpp:86-98 | Purging never changes the counter or the average and never lengthens the history. |
| ReceptionTracking.BlockReceptionTracker.constructor | listener-head/block-reception-tracker.hpp:111-116 | A new tracker is empty, with counter and average 0. |
| ReceptionTracking.BlockReceptionTracker.TrackBlockReceived | listener-head/block-reception-tracker.hpp:28-51 | The new state is `Track` of the old state and the record: the history cap is kept and the counter rises by one. |
| ReceptionTracking.BlockReceptionTracker.UpdateStats | listener-head/block-reception-tracker.hpp:101-109 | Counts one record. When the history is non-empty it folds the newest entry's time into the average. Index and history are unchanged. |
| ReceptionTracking.BlockReceptionTracker.GetRecentBlocksStats | listener-head/block-reception-tracker.hpp:53-65 | The loop over the history from the back returns min(limit, size) entries, newest first, equal to `NewestFirst`. |
| ReceptionTracking.BlockReceptionTracker.ClearOldBlocks | listener-head/block-reception-tracker.hpp:86-98 | The erase-while-iterating loop leaves exactly the state `ClearOld` describes. |
| ReceptionTracking.BlockReceptionTracker.GetBlockStats | listener-head/block-reception-tracker.hpp:67-74 | The object-level `get_block_stats`: `Lookup` of the current state. |
| ReceptionTracking.BlockReceptionTracker.GetAverageProcessingTime | listener-head/block-reception-tracker.hpp:76-79 | Reads the smoothed average field. |
| ReceptionTracking.BlockReceptionTracker.GetBlocksReceivedCount | listener-head/block-reception-tracker.hpp:81-84 | Reads the received counter. |
| HeadManager.FreshHeadAgrees | listener-head/listener-head-manager.hpp:17-28 | A new manager has zero counters, no overlays, and a tracker whose count agrees with them. |
| HeadManager.Process | listener-head/listener-head-manager.hpp:31-74 | Defines the three `process_*` entry points: one tracker call with the data size and the source id, then that entry point's own counter. See `ProcessSpec` and `ProcessAllAgrees`. |
| HeadManager.AddOverlay | listener-head/listener-head-manager.hpp:131-142 | Defines `add_overlay_to_listen`: a set insert that reports whether `start_listening_overlay` runs. See `AddOverlaySpec`. |
| HeadManager.ProcessSpec | listener-head/listener-head-manager.hpp:31-74 | Each entry point raises its own counter by one and no other, keeps the overlays, and makes one tracker call. The tracker's count rises by one, the record is what a lookup returns, and the counts stay in agreement. |
| HeadManager.ProcessAllAgrees | listener-head/listener-head-manager.hpp:31-74 | From a fresh manager, after any run of calls the tracker's count equals the number of calls and the sum of the three counters. |
| HeadManager.AddOverlaySpec | listener-head/listener-head-manager.hpp:131-142 | The overlay is monitored afterwards. A subscription starts exactly when it was new, adding it again changes nothing, and nothing else changes. |
| HeadManager.ListenerHeadManager.constructor | listener-head/listener-head-manager.hpp:17-28 | The constructor creates a fresh tracker; the state is `FreshHead`. |
| HeadManager.ListenerHeadManager.ProcessBlock | listener-head/listener-head-manager.hpp:31-48 | The new state is `Process(old, Block, …)`. |
| HeadManager.ListenerHeadManager.ProcessBlockCandidate | listener-head/listener-head-manager.hpp:51-61 | The new state is `Process(old, Candidate, …)`. |
| HeadManager.ListenerHeadManager.ProcessShardBlock | listener-head/listener-head-manager.hpp:64-74 | The new state is `Process(old, Shard, …)`. |
| HeadManager.ListenerHeadManager.AddOverlayToListen | listener-head/listener-head-manager.hpp:131-142 | State and result are given by `AddOverlay`. |
| HeadManager.ListenerHeadManager.StartListening | listener-head/listener-head-manager.hpp:163-173 | Warns exactly when no overlay is monitored. |
| HeadManager.ListenerHeadManager.GetRecentBlocksStats | listener-head/listener-head-manager.hpp:81-83 | The tracker's newest `limit` records, newest first. |
| HeadManager.ListenerHeadManager.GetAverageProcessingTime | listener-head/listener-head-manager.hpp:89-91 | The tracker's smoothed average. |
| HeadManager.ListenerHeadManager.GetBlocksReceivedCount | listener-head/listener-head-manager.hpp:93-95 | While the counts agree, the tracker's count is the sum of the block, candidate and shard counters. |
| HeadImpl.OnlyBroadcastsTrack | listener-head/listener-head-manager-impl.cpp:110-145 | Only an `overlay.broadcast` whose payload decodes as a block broadcast or a block update reaches the tracker. A failed decode, FEC parts, NotFound, unicasts and other variants produce nothing. |
| HeadImpl.TryProcess | listener-head/listener-head-manager-impl.cpp:291-322 | Defines `try_process_block`: one record with the block size and processing time when BlockQ parses with a root cell, none otherwise. |
| HeadImpl.BlockBroadcastTracks | listener-head/listener-head-manager-impl.cpp:182-236 | Defines `process_block_broadcast`: the tracker calls for a block broadcast or a block update. See `BlockBroadcastFirst` and `BroadcastTrackCount`. |
| HeadImpl.OverlayMessageTracks | listener-head/listener-head-manager-impl.cpp:110-145 | Defines `process_overlay_message`'s dispatch on the decoded variant. See `OnlyBroadcastsTrack`. |
| HeadImpl.BroadcastMessageTracks | listener-head/listener-head-manager-impl.cpp:147-180 | Defines `process_broadcast_message`. See `BroadcastMessageCount`. |
| HeadImpl.AddOverlay | listener-head/listener-head-manager-impl.cpp:324-335 | Defines the implementation's `add_overlay_to_listen`. See `HeadImpl.AddOverlaySpec`. |
| HeadImpl.StartListening | listener-head/listener-head-manager-impl.cpp:64-88 | Defines `start_listening`: with no monitored overlay it monitors and subscribes to the default overlay keys; otherwise nothing. See `DefaultOverlaysCoincide`. |
| HeadImpl.ConnectionCheck | listener-head/listener-head-manager-impl.cpp:345-366 | Defines `check_connection_status`. See `ConnectionCheckSpec` and `QuietAfterCheck`. |
| HeadImpl.BlockBroadcastFirst | listener-head/listener-head-manager-impl.cpp:182-236 | A payload that decodes as `blockBroadcast` is handled as one, whatever its `blockUpdate` decoding says. A `blockUpdate` alone is tracked exactly once with the payload size and its source as address. |
| HeadImpl.BroadcastTrackCount | listener-head/listener-head-manager-impl.cpp:216-236 | At most two tracker calls per overlay broadcast, both for the broadcast block's id. There are exactly two when the block parses with a root cell: the first carries the payload size, the second the block size, the processing time and the later timestamp. |
| HeadImpl.BroadcastMessageCount | listener-head/listener-head-manager-impl.cpp:147-180 | A direct block broadcast is tracked once with the address "broadcast", and a second time exactly when the block parses. A failed decode tracks nothing. |
| HeadImpl.AddOverlaySpec | listener-head/listener-head-manager-impl.cpp:324-335 | The overlay is monitored afterwards, the subscription is issued exactly when it was new, and adding it again is a no-op. |
| HeadImpl.DefaultOverlaysCoincide | listener-head/listener-head-manager-impl.cpp:64-88 | With no overlay monitored, start-up subscribes to a single overlay, because both default keys are the same. With overlays already present it does nothing. |
| HeadImpl.ConnectionCheckSpec | listener-head/listener-head-manager-impl.cpp:345-366 | The check resubscribes exactly when the count has not moved for more than 300 s. The stored count becomes the current one. The timestamp moves to now exactly when the count moved or a resubscription happened. Nothing else changes. |
| HeadImpl.QuietAfterCheck | listener-head/listener-head-manager-impl.cpp:345-366 | After a check that resubscribed or saw new blocks, any check within the next 300 s does nothing, provided no new block is counted. |
| HeadImpl.ListenerHeadManager.constructor | listener-head/listener-head-manager.hpp:17-28 | A fresh, empty tracker beside the given overlays and counters. |
| HeadImpl.ListenerHeadManager.StartUp | listener-head/listener-head-manager-impl.cpp:53-88 | State and result are given by `StartListening`: the subscriptions issued for the default overlays. |
| HeadImpl.ListenerHeadManager.AddOverlayToListen | listener-head/listener-head-manager-impl.cpp:324-335 | State and result are given by `AddOverlay`. |
| HeadImpl.ListenerHeadManager.TrackBlockReceived | listener-head/listener-head-manager.hpp:198-203 | One tracker `Track` with the given record; nothing else changes. |
| HeadImpl.ListenerHeadManager.TryProcessBlock | listener-head/listener-head-manager-impl.cpp:291-322 | The tracker is advanced by `TryProcess`: one record exactly when BlockQ parses with a root cell. |
| HeadImpl.ListenerHeadManager.ProcessBlockBroadcast | listener-head/listener-head-manager-impl.cpp:182-236 | The tracker is advanced by `BlockBroadcastTracks`. |
| HeadImpl.ListenerHeadManager.ProcessOverlayMessage | listener-head/listener-head-manager-impl.cpp:110-145 | The tracker is advanced by `OverlayMessageTracks`. |
| HeadImpl.ListenerHeadManager.ProcessBroadcastMessage | listener-head/listener-head-manager-impl.cpp:147-180 | The tracker is advanced by `BroadcastMessageTracks`. |
| HeadImpl.ListenerHeadManager.CheckConnectionStatus | listener-head/listener-head-manager-impl.cpp:345-366 | The new state is `ConnectionCheck`'s. On a resubscription the overlays are listed in ascending order; otherwise the list is empty. |
| HeadImpl.ListenerHeadManager.StopListening | listener-head/listener-head-manager-impl.cpp:368-375 | One `delete_overlay` per monitored overlay: each exactly once, in ascending order. |
| HeadImpl.TrackAllConcat | listener-head/listener-head-manager-impl.cpp:231-235 | Tracking two runs in turn equals tracking their concatenation, so a handler's calls compose. |
| HeaderConnections.LastsOfWithLasts | listener-head/listener-connection-manager.hpp:49-78 | Writing new last-attempt times into the registry and reading them back gives those times; the peer set is kept. |
| HeaderConnections.AddPeerState | listener-head/listener-connection-manager.hpp:21-27 | Defines `add_peer` before its `update_connections`: a fresh entry stamped now, and validator-set membership for a validator. See `AddPeerSpec`. |
| HeaderConnections.AddOverlayState | listener-head/listener-connection-manager.hpp:29-32 | Defines `add_overlay`'s set insert. See `AddOverlayIdempotent`. |
| HeaderConnections.RequestFor | listener-head/listener-connection-manager.hpp:80-100 | Defines one `connect_to_peer`: address, the priority of its kind, and for a validator the subscriptions to the monitored overlays in ascending order. |
| HeaderConnections.Requests | listener-head/listener-connection-manager.hpp:80-100 | The `connect_to_peer` requests for a list of ids, in order. See `RequestsSpec`. |
| HeaderConnections.UpdateStep | listener-head/listener-connection-manager.hpp:49-78 | Defines `update_connections`: the two-pass `Schedule` over the peer registry, and the requests for its two id lists. See `UpdateStepFrame`, `UpdateConnectsDueValidators`, `RequestsConcatSpec` and `UpdateCapsOthers`. |
| HeaderConnections.RequestsSpec | listener-head/listener-connection-manager.hpp:80-100 | One request per scheduled id, in order. Each carries the peer's address and the priority of its kind, and a validator's request subscribes to every monitored overlay in ascending order. |
| HeaderConnections.AddPeerSpec | listener-head/listener-connection-manager.hpp:21-27 | `add_peer` replaces the entry by a fresh one stamped now. A validator id joins the set, which only grows, and other peers are untouched. |
| HeaderConnections.AddedPeerNotConnected | listener-head/listener-connection-manager.hpp:21-27 | The `update_connections` that `add_peer` triggers never connects the peer just added, which was stamped now. |
| HeaderConnections.AddOverlayIdempotent | listener-head/listener-connection-manager.hpp:29-32 | `add_overlay` is an idempotent set insert. |
| HeaderConnections.UpdateStepFrame | listener-head/listener-connection-manager.hpp:49-78 | `update_connections` changes only last-attempt times, exactly those of the peers it connects, which it stamps now. |
| HeaderConnections.UpdateConnectsDueValidators | listener-head/listener-connection-manager.hpp:51-58 | Every due validator known as a peer is connected at the uint32-maximum priority and subscribed to every monitored overlay, whatever the cap. |
| HeaderConnections.RequestsConcatSpec | listener-head/listener-connection-manager.hpp:49-100 | Validator requests come first at the maximum priority. The other peers follow at priority 0 with no subscription. |
| HeaderConnections.UpdateLeavesOutOnlyAtCap | listener-head/listener-connection-manager.hpp:60-77 | A due peer outside the validator set that gets no request was passed over only because max − \|validators\| ordinary peers were already requested. |
| HeaderConnections.UpdateCapsOthers | listener-head/listener-connection-manager.hpp:60-77 | At most max − \|validators\| ordinary peers are connected. Each is due, outside the validator set and not subscribed. A due ordinary peer gets no request only when the ordinary requests have used up those max − \|validators\| places. |
| HeaderConnections.ConnectionManager.constructor | listener-head/listener-connection-manager.hpp:148-152 | Empty registry, sets and overlays; the cap is `MAX_OUTBOUND_CONNECTIONS`. |
| HeaderConnections.ConnectionManager.AddPeer | listener-head/listener-connection-manager.hpp:21-27 | The new state and the requests sent are `UpdateStep` of `AddPeerState`. |
| HeaderConnections.ConnectionManager.AddOverlay | listener-head/listener-connection-manager.hpp:29-32 | The new state and the requests sent are `UpdateStep` of `AddOverlayState`. |
| HeaderConnections.ConnectionManager.SetMaxConnections | listener-head/listener-connection-manager.hpp:34-36 | Only the cap changes. |
| HeaderConnections.ConnectionManager.ConnectToPeer | listener-head/listener-connection-manager.hpp:80-100 | A validator's request has the uint32-maximum priority and subscribes to exactly the monitored overlays. Any other request has priority 0 and no subscription. |
| HeaderConnections.ConnectionManager.UpdateConnections | listener-head/listener-connection-manager.hpp:49-78 | The two loops produce exactly `UpdateStep`'s state and requests. |
| HeaderConnections.ConnectionManager.ReconnectValidators | listener-head/listener-connection-manager.hpp:51-58 | The first loop stamps and connects exactly `ValidatorPass`'s ids and leaves the rest of the state alone. |
| HeaderConnections.ConnectionManager.ReconnectOthers | listener-head/listener-connection-manager.hpp:61-77 | The capped second loop stamps and connects exactly `OthersPass`'s ids. |
| HeaderConnections.ConnectionManager.Alarm | listener-head/listener-connection-manager.hpp:102-105 | The result of one `update_connections`. |
| HeaderConnections.ConnectionManager.StartUp | listener-head/listener-connection-manager.hpp:107-128 | One DHT `get_peers` lookup per monitored overlay, each exactly once, in ascending overlay order (`std::set` iteration). |
| HeaderConnections.ConnectionManager.AttemptPeerLookup | listener-head/listener-connection-manager.hpp:131-142 | A non-empty address list adds the peer as an ordinary one at its first address, with `add_peer`'s effect. An error or an empty list changes nothing. |
| Scheduling.ValidatorPassSpec | listener-head/listener-connection-manager.hpp:51-58 | Exactly the privileged ids that are known and due are connected, each once and whatever the cap. Exactly they get the new time; the peer set is kept. |
| Scheduling.ValidatorPass | listener-head/listener-connection-manager.hpp:51-58 | Defines the validator loop: each known, due id in order is stamped now and connected. See `ValidatorPassSpec`. |
| Scheduling.OthersPass | listener-head/listener-connection-manager.hpp:61-77 | Defines the capped loop over the other peers in key order. See `OthersPassSpec` and `OthersPassBound`. |
| Scheduling.Schedule | listener-head/listener-connection-manager.hpp:49-78 | The two passes in turn. The second pass starts its counter at the validator count and runs over the stamped registry. See `ScheduleSpec`. |
| Scheduling.OthersPassBound | listener-head/listener-connection-manager.hpp:61-77 | The capped loop connects at most cap − current peers, and none once the counter has reached the cap. |
| Scheduling.OthersPassSpec | listener-head/listener-connection-manager.hpp:61-77 | Only due, known peers outside the privileged set are connected, each once. Exactly they get the new time. |
| Scheduling.OthersPassComplete | listener-head/listener-connection-manager.hpp:60-77 | The capped loop skips no due peer before it stops: a due, known, unprivileged peer of the walk that is not connected was reached only once the counter had come to the cap. |
| Scheduling.ScheduleLeavesOutOnlyAtCap | listener-head/listener-connection-manager.hpp:60-77 | For one due, unprivileged peer that neither pass connects: the others already fill max − \|privileged\| places. |
| Scheduling.ScheduleSpec | listener-head/listener-connection-manager-impl.cpp:225-256 | Both loops together: every due privileged peer is reconnected, and at most max − \|privileged\| others, all of them due. A due other peer is left out only when those max − \|privileged\| places are used up. Everyone connected is stamped now and no peer is added or lost. |
| Scheduling.FreshPeerNotScheduled | listener-head/listener-connection-manager.hpp:45-46 | A peer whose time is now, as a newly added one is, is connected by neither loop. |
| ListenerConnections.StatusUpdate | listener-head/listener-connection-manager-impl.cpp:200-222 | A ping result keeps the address, stamps now, and leaves one of the two streaks at zero. |
| ListenerConnections.WithStatus | listener-head/listener-connection-manager-impl.cpp:198-223 | Only a known peer is updated; an unknown id changes nothing, and no other entry changes. |
| ListenerConnections.StatusUpdateSpec | listener-head/listener-connection-manager-impl.cpp:203-221 | A success extends the success streak and ends the fail streak; a failure does the reverse. The validator flag changes only across the thresholds 5 and 3. |
| ListenerConnections.PromotedOnSixthSuccess | listener-head/listener-connection-manager-impl.cpp:203-211 | From an ended streak, k successes in a row give a success count of k. A peer becomes a validator exactly when it was one or k ≥ 6. |
| ListenerConnections.DemotedOnFourthFailure | listener-head/listener-connection-manager-impl.cpp:212-221 | From an ended streak, k failures in a row give a fail count of k. A validator keeps the flag exactly when k < 4. |
| ListenerConnections.InactiveIds | listener-head/listener-connection-manager-impl.cpp:265-272 | The first gc loop collects exactly the peers that are unflagged, have more than 5 failures and have been idle more than 3600 s. |
| ListenerConnections.SweptSpec | listener-head/listener-connection-manager-impl.cpp:261-278 | The sweep removes exactly the inactive peers and never one flagged as a validator. The others are untouched and a second sweep removes nothing. |
| ListenerConnections.Swept | listener-head/listener-connection-manager-impl.cpp:261-278 | Defines `gc_inactive_peers`: the registry without its inactive peers. See `SweptSpec` and `WithoutInactiveIsSwept`. |
| ListenerConnections.WithoutInactiveIsSwept | listener-head/listener-connection-manager-impl.cpp:274-277 | Erasing the collected ids one by one gives the swept registry. |
| ListenerConnections.PeerLastsRoundTrip | listener-head/listener-connection-manager-impl.cpp:225-256 | Writing new last-attempt times into the registry and reading them back gives those times; the peer set is kept. |
| ListenerConnections.ConnectFor | listener-head/listener-connection-manager-impl.cpp:159-179 | The ADNL `add_peer` priority is the uint32 maximum exactly for a validator and 0 otherwise. |
| ListenerConnections.Connects | listener-head/listener-connection-manager-impl.cpp:233-251 | One connect per scheduled id, in order, with the peer's address and its kind's priority. |
| ListenerConnections.UpdateConnectsDueValidators | listener-head/listener-connection-manager-impl.cpp:229-236 | Every due member of the validator set known as a peer is connected at the uint32 maximum, whatever the cap. |
| ListenerConnections.UnconnectedNotScheduled | listener-head/listener-connection-manager-impl.cpp:239-255 | A peer that no connect of `update_connections` names is not among the second loop's scheduled ids. |
| ListenerConnections.UpdateLeavesOutOnlyAtCap | listener-head/listener-connection-manager-impl.cpp:239-255 | A due peer outside the validator set that gets no connect was passed over only because max − \|validators\| others were already connected. |
| ListenerConnections.UpdateStep | listener-head/listener-connection-manager-impl.cpp:225-259 | Defines the implementation's `update_connections`: `Schedule` over the registry, its connects, then the sweep. See `UpdateConnectsDueValidators`, `UpdatePriorityFollowsValidatorSet` and `SweepSparesValidatorSet`. |
| ListenerConnections.UpdatePriorityFollowsValidatorSet | listener-head/listener-connection-manager-impl.cpp:225-256 | A connect has the maximum priority exactly when its peer is in the validator set, not when it carries the promotion flag. Other peers are connected only when due, and at most max − \|validators\| of them. A due other peer gets no connect only when those places are used up. |
| ListenerConnections.SweepSparesValidatorSet | listener-head/listener-connection-manager-impl.cpp:225-278 | The sweep that ends `update_connections` never removes a member of the validator set or a peer the same call connected. It only removes entries and keeps the addresses. |
| ListenerConnections.ListenerConnectionManager.constructor | listener-head/listener-connection-manager-impl.cpp:280-283 | Starts from the given registry. |
| ListenerConnections.ListenerConnectionManager.UpdatePeerStatus | listener-head/listener-connection-manager-impl.cpp:198-223 | Only the peer map changes, as `WithStatus` says. |
| ListenerConnections.ListenerConnectionManager.ConnectToPeer | listener-head/listener-connection-manager-impl.cpp:159-179 | The connect is `ConnectFor`: the priority by kind. |
| ListenerConnections.ListenerConnectionManager.UpdateConnections | listener-head/listener-connection-manager-impl.cpp:225-259 | Both loops and the sweep produce exactly `UpdateStep`'s state and connects. |
| ListenerConnections.ListenerConnectionManager.ReconnectValidators | listener-head/listener-connection-manager-impl.cpp:229-236 | The first loop stamps and connects exactly `ValidatorPass`'s ids. |
| ListenerConnections.ListenerConnectionManager.ReconnectOthers | listener-head/listener-connection-manager-impl.cpp:239-255 | The capped second loop stamps and connects exactly `OthersPass`'s ids. |
| ListenerConnections.ListenerConnectionManager.CollectInactive | listener-head/listener-connection-manager-impl.cpp:262-272 | Collects exactly the inactive peers, in ascending order. |
| ListenerConnections.ListenerConnectionManager.GcInactivePeers | listener-head/listener-connection-manager-impl.cpp:261-278 | Only the peer map changes, to `Swept`. |
| ListenerConnections.ListenerConnectionManager.RemovePeers | listener-head/listener-connection-manager-impl.cpp:274-277 | Each listed id is erased; nothing else changes. |
| ListenerConnections.ListenerConnectionManager.DiscoverNewPeers | listener-head/listener-connection-manager-impl.cpp:77-97 | Nothing happens without overlays. Otherwise the overlay at index r1 mod size in ascending order is searched, and the DHT is asked as well exactly when r2 mod 100 < 20. |
| ListenerConnections.ListenerConnectionManager.Alarm | listener-head/listener-connection-manager-impl.cpp:285-289 | One `update_connections`, then the discovery choice. |
| ValidatorHead.RecordSpec | validator/listener-head-manager.cpp:185-208 | Each call counts one block, stores its info (size narrowed to 32 bits), and pushes one id and pops at most one. At most the popped id is erased, and the limit is unchanged. |
| ValidatorHead.Record | validator/listener-head-manager.cpp:185-208 | Defines `record_block_reception` as written: overwrite the entry with a new info, push the id, and past the limit pop and erase the front id. See `RecordSpec`, `RecordNewIdKeepsBound`, `StaleFrontOverflows` and `RepeatedIdBreaksBound`. |
| ValidatorHead.RecordLru | validator/listener-head-manager.cpp:185-208 | Corrected `record_block_reception`: a repeated id is moved to the back of the FIFO rather than pushed again. See `RecordLruKeepsBound`. |
| ValidatorHead.FreshReceptionBounded | validator/listener-head-manager.hpp:181-184 | A fresh reception state is empty and within its limit of 10 000, with a total of 0. |
| ValidatorHead.RecordNewIdKeepsBound | validator/listener-head-manager.cpp:190-200 | For an id not yet tracked, the map stays within the limit and its keys remain exactly the FIFO's ids, each once. |
| ValidatorHead.StaleFrontOverflows | validator/listener-head-manager.cpp:196-200 | When the FIFO's front names an id already erased, the next eviction erases nothing and the map ends one over the limit. |
| ValidatorHead.RepeatedIdBreaksBound | validator/listener-head-manager.cpp:190-200 | As written: with a limit of 1, recording a, a, b, c leaves two blocks tracked. |
| ValidatorHead.RecordLruKeepsBound | validator/listener-head-manager.cpp:190-200 | Corrected: when a repeated id moves to the back of the FIFO, the limit holds for every sequence of ids, and one block is still counted per call. |
| ValidatorHead.GetOrCreateSpec | validator/listener-head-manager.cpp:109-123 | A cached handle that still locks is returned unchanged; otherwise a new one, marked received, replaces the entry. No other entry changes, and asking again returns the same handle. |
| ValidatorHead.GetOrCreate | validator/listener-head-manager.cpp:109-123 | Defines `create_or_get_handle`. See `GetOrCreateSpec`. |
| ValidatorHead.Forward | validator/listener-head-manager.cpp:210-240 | Defines `forward_block_to_callback`. See `ForwardSpec` and `ForwardIgnoresWorkchain`. |
| ValidatorHead.Receive | validator/listener-head-manager.cpp:130-183 | The shared reception path of `validate_block`, `prevalidate_block`, `new_block_candidate` and `new_shard_block`: `Record`, then `Forward`. See `ReceiveKeepsNeverFilled`. |
| ValidatorHead.StatsOf | validator/listener-head-manager.cpp:490-520 | Defines `prepare_stats`: the head entries, the masterchain entries when a masterchain block is valid, then the replies the providers' callbacks give during this call, by ascending index. See `StatsHead`, `NeverFilledStats` and `RepliesReachStats`. |
| ValidatorHead.ForwardSpec | validator/listener-head-manager.cpp:210-240 | No call without a callback. Otherwise `download_block` with priority 0 and a 10 s timeout exactly when the catchain seqno is 0, else `send_shard_block_info` with the data. |
| ValidatorHead.ForwardIgnoresWorkchain | validator/listener-head-manager.cpp:215-239 | The masterchain and shard branches coincide: changing the workchain changes only the id in the call. |
| ValidatorHead.BroadcastSource | validator/listener-head-manager.cpp:152-155 | The source of a broadcast is its first signature's node, or the zero id when unsigned. |
| ValidatorHead.Prefixed | validator/listener-head-manager.cpp:509-513 | Each provider entry keeps its value and gets the provider's prefix before its key, in order. |
| ValidatorHead.StatsHead | validator/listener-head-manager.cpp:494-496 | The stats begin with mode = listener_head, total_blocks_received and tracked_blocks, both in decimal. |
| ValidatorHead.ReceiveKeepsNeverFilled | validator/listener-head-manager.hpp:189 | No reception path assigns the last masterchain block or fills the data cache. |
| ValidatorHead.NeverFilledStats | validator/listener-head-manager.cpp:498-504 | Without a known masterchain block the stats hold no masterchain entries, only the head and the providers' replies. |
| ValidatorHead.KeySetsSpec | validator/listener-head-manager.cpp:79-97 | After any run of add/delete calls, a key is present exactly when the last call naming it was an add. When no call named it, it is present exactly when it was before. |
| ValidatorHead.ApplyKeyOps | validator/listener-head-manager.cpp:79-97 | A run of key add/delete calls, each the set update its method performs. See `KeySetsSpec`. |
| ValidatorHead.ApplyProviderOps | validator/listener-head-manager.cpp:544-552 | A run of provider register/unregister calls. See `ProvidersSpec`. |
| ValidatorHead.ProvidersSpec | validator/listener-head-manager.cpp:544-552 | After any run of register/unregister calls, an index holds the provider its last register installed, and is absent when an unregister came last. An index no call named keeps its provider. |
| ValidatorHead.ListenerHeadManager.constructor | validator/listener-head-manager.hpp:173-200 | Member initialisers: no callback, keys, handles or providers; a limit of 10 000; a cache limit of 100; an invalid masterchain id. |
| ValidatorHead.ListenerHeadManager.StartUp | validator/listener-head-manager.cpp:31-42 | Only `started` changes. |
| ValidatorHead.ListenerHeadManager.InstallCallback | validator/listener-head-manager.cpp:74-77 | Only the callback changes. |
| ValidatorHead.ListenerHeadManager.AddPermanentKey | validator/listener-head-manager.cpp:79-82 | Only the permanent keys change, by insertion. |
| ValidatorHead.ListenerHeadManager.AddTempKey | validator/listener-head-manager.cpp:84-87 | Only the temporary keys change, by insertion. |
| ValidatorHead.ListenerHeadManager.DelPermanentKey | validator/listener-head-manager.cpp:89-92 | Only the permanent keys change, by erasure. |
| ValidatorHead.ListenerHeadManager.DelTempKey | validator/listener-head-manager.cpp:94-97 | Only the temporary keys change, by erasure. |
| ValidatorHead.ListenerHeadManager.RecordBlockReception | validator/listener-head-manager.cpp:185-208 | Only the reception state changes, to `Record`'s. |
| ValidatorHead.ListenerHeadManager.ForwardBlockToCallback | validator/listener-head-manager.cpp:210-240 | The call made is `Forward`'s. |
| ValidatorHead.ListenerHeadManager.CreateOrGetHandle | validator/listener-head-manager.cpp:109-123 | Handle and cache are `GetOrCreate`'s; nothing else changes. |
| ValidatorHead.ListenerHeadManager.GetBlockHandle | validator/listener-head-manager.cpp:125-128 | Same as `create_or_get_handle`. |
| ValidatorHead.ListenerHeadManager.ValidateBlock | validator/listener-head-manager.cpp:130-145 | Records with the zero source, then gets the handle, then forwards with seqno 0. |
| ValidatorHead.ListenerHeadManager.PrevalidateBlock | validator/listener-head-manager.cpp:147-163 | Records with the first signature's node as source, then forwards with the broadcast's seqno. |
| ValidatorHead.ListenerHeadManager.NewBlockCandidate | validator/listener-head-manager.cpp:165-173 | Records with the zero source, then forwards with seqno 0. |
| ValidatorHead.ListenerHeadManager.NewShardBlock | validator/listener-head-manager.cpp:175-183 | Records with the zero source, then forwards with the given seqno. |
| ValidatorHead.ListenerHeadManager.GetTopMasterchainBlock | validator/listener-head-manager.cpp:272-278 | The last masterchain id when it is valid, otherwise the error "no masterchain blocks received yet". |
| ValidatorHead.ListenerHeadManager.GetTopMasterchainState | validator/listener-head-manager.cpp:267-270 | Always fails with "state not maintained in listener head mode". |
| ValidatorHead.ListenerHeadManager.GetBlockData | validator/listener-head-manager.cpp:290-297 | The cached data when present, otherwise "block data not found". |
| ValidatorHead.ListenerHeadManager.RegisterStatsProvider | validator/listener-head-manager.cpp:544-548 | Only the providers change: the index is set to the prefix. The callback is not stored as data: its replies are an input of each `prepare_stats`. |
| ValidatorHead.ListenerHeadManager.UnregisterStatsProvider | validator/listener-head-manager.cpp:550-552 | Only the providers change: the index is erased. |
| ValidatorHead.ListenerHeadManager.PrepareStats | validator/listener-head-manager.cpp:490-520 | The entries are the head, then the masterchain entries when a masterchain block is valid, then each registered provider's reply of this call, by ascending index and under its prefix. |
| ValidatorHead.CollectProviderEntries | validator/listener-head-manager.cpp:507-517 | The provider loop yields `ProviderEntries` in the order given: an error reply, or no reply, adds nothing. |
| ValidatorHead.ProviderEntriesAppend | validator/listener-head-manager.cpp:507-517 | One more index adds that provider's reply under its prefix when it is registered and replied ok, and nothing otherwise. |
| ValidatorHead.ProviderEntriesReadsRegistered | validator/listener-head-manager.cpp:507-517 | Only the replies of registered providers are read: replies that agree on those give the same entries. |
| ValidatorHead.RepliesReachStats | validator/listener-head-manager.cpp:507-517 | The callback is asked again at every call: with one provider registered, two calls whose replies differ give different stats. |
| GlobalConfig.ParseStaticNodes | listener-head/global-config-parser.cpp:33-193 | The result is `StaticNodes`: the decode error, the first failing section check, or the accepted nodes. |
| GlobalConfig.StaticNodes | listener-head/global-config-parser.cpp:33-193 | Defines `parse_static_nodes`. See `StaticNodesSectionErrors`, `StaticNodesSucceedsExactly` and `StaticNodesBounded`. |
| GlobalConfig.StaticNodeOf | listener-head/global-config-parser.cpp:72-189 | The loop body's verdict on one entry of `nodes`. See `StaticNodeAcceptedExactly` and `OnlyFirstAddressCounts`. |
| GlobalConfig.FilterStaticNodes | listener-head/global-config-parser.cpp:71-190 | The accepted entries of `nodes` in order. See `StaticNodesConcat` and `StaticNodesSingle`. |
| GlobalConfig.Liteservers | listener-head/global-config-parser.cpp:221-326 | Defines `parse_liteservers`. See `LiteserversSucceedsExactly` and `LiteserversBounded`. |
| GlobalConfig.LiteserverOf | listener-head/global-config-parser.cpp:245-319 | The loop body's verdict on one liteserver. See `LiteserverAcceptedExactly`. |
| GlobalConfig.FilterLiteservers | listener-head/global-config-parser.cpp:244-323 | The accepted liteservers in order. See `LiteserversConcat` and `LiteserversSingle`. |
| GlobalConfig.DefaultOverlayIds | listener-head/global-config-parser.cpp:196-218 | Defines `extract_default_overlay_ids`. See `DefaultOverlayIdsCoincide`. |
| GlobalConfig.CollectStaticNodes | listener-head/global-config-parser.cpp:71-190 | The loop over `nodes` keeps exactly the entries `StaticNodeOf` accepts, in order. |
| GlobalConfig.ParseLiteservers | listener-head/global-config-parser.cpp:221-326 | The result is `Liteservers`: the decode error, the section error, or the accepted servers. |
| GlobalConfig.CollectLiteservers | listener-head/global-config-parser.cpp:244-323 | The loop over `liteservers` keeps exactly the accepted entries, in order. |
| GlobalConfig.StaticNodesSectionErrors | listener-head/global-config-parser.cpp:41-68 | The sections are checked in order, each error naming the first that is missing or of the wrong type: not an object, `dht`, `static_nodes`, `nodes`. |
| GlobalConfig.StaticNodesSucceedsExactly | listener-head/global-config-parser.cpp:36-68 | Succeeds exactly when the text decodes to an object with an array at dht.static_nodes.nodes. A decode error is returned as is, and success is the filter of that array. |
| GlobalConfig.StaticNodesConcat | listener-head/global-config-parser.cpp:71-190 | The filter keeps accepted entries in order: filtering concatenated arrays concatenates the results. |
| GlobalConfig.StaticNodesSingle | listener-head/global-config-parser.cpp:71-190 | An entry's contribution is its own verdict: one node or nothing. |
| GlobalConfig.StaticNodesBounded | listener-head/global-config-parser.cpp:71-190 | The result is no longer than `nodes`, and each accepted node is the verdict on some entry. |
| GlobalConfig.StaticNodeAcceptedExactly | listener-head/global-config-parser.cpp:72-189 | A node is accepted exactly when it is an object with an Ed25519 id whose key decodes to 32 bytes. Its first address must also be a UDP object with numeric ip and port that initialise. |
| GlobalConfig.OnlyFirstAddressCounts | listener-head/global-config-parser.cpp:141-147 | Only `addrs[0]` is consulted: a node whose first address is not an object is skipped, whatever follows. |
| GlobalConfig.LiteserverAcceptedExactly | listener-head/global-config-parser.cpp:245-319 | A liteserver is accepted on the same key and address conditions, with ip and port read directly on the server object. |
| GlobalConfig.LiteserversSucceedsExactly | listener-head/global-config-parser.cpp:224-241 | Errors exactly when the text does not decode, is not an object, or lacks a `liteservers` array, with the matching message. |
| GlobalConfig.LiteserversBounded | listener-head/global-config-parser.cpp:244-323 | The result is no longer than the array, and each accepted server is the verdict on some entry. |
| GlobalConfig.LiteserversConcat | listener-head/global-config-parser.cpp:244-323 | The liteserver filter keeps accepted entries in order: filtering concatenated arrays concatenates the results. |
| GlobalConfig.LiteserversSingle | listener-head/global-config-parser.cpp:244-323 | A server's contribution is its own verdict: one server or nothing. |
| GlobalConfig.DefaultOverlayIdsCoincide | listener-head/global-config-parser.cpp:196-218 | Two ids are returned and they are equal: both are built from the masterchain root hash, which equals the basechain's. |
| Json.Find | listener-head/listener-head-config.hpp:26-27 | The first member with the key, in member order. None exactly when no member has it, and no earlier member has the key. |
| Json.FindTakesFirst | listener-head/listener-head-config.hpp:34-35 | Of several members with the same name, only the first is seen. |
| Json.ToInt32 | listener-head/global-config-parser.cpp:178 | `to_integer<int32>` wraps into the signed 32-bit range: in range, congruent to the input modulo 2^32, and equal to it when it fits. |
| Json.ToUint16 | listener-head/global-config-parser.cpp:179 | The cast to `uint16` gives a value below 65536, congruent modulo 65536, and the input itself when it fits. |
| HeadConfig.FromJsonReadsEachPath | listener-head/listener-head-config.hpp:18-49 | Each field independently comes from its own number at listener.<name> or falls back to its own default. |
| HeadConfig.FromJson | listener-head/listener-head-config.hpp:18-49 | Defines `ListenerConfig::from_json`. See `FromJsonReadsEachPath`, `DefaultsWithoutListenerSection` and `FirstListenerSectionWins`. |
| HeadConfig.ExtractInt | listener-head/listener-head-config.hpp:33-40 | Defines the `extract_int` lambda: the first member with the name, converted by `to_integer<int32>` when it is a number, else the default. See `NonNumberFallsBack` and `SettingsFitInt`. |
| HeadConfig.DefaultsWithoutListenerSection | listener-head/listener-head-config.hpp:21-29 | A document that is not an object, or has no object under "listener", gives the defaults 1000, 10485760, 8080, 3. |
| HeadConfig.SettingsFitInt | listener-head/listener-head-config.hpp:36-38 | Every setting fits a C++ `int`. |
| HeadConfig.NonNumberFallsBack | listener-head/listener-head-config.hpp:36-39 | A member that is present but not a number falls back to the default, like a missing one. |
| HeadConfig.FirstListenerSectionWins | listener-head/listener-head-config.hpp:26-29 | Of two "listener" sections only the first is read. |
| HttpServer.FirstIndexOf | listener-head/listener-http-server.hpp:56-60 | `find('?')`: no '?' before the index, and a '?' at it unless it is the end. |
| HttpServer.PathOfSpec | listener-head/listener-http-server.hpp:56-60 | The path is the URL cut before its first '?', or the whole URL when it has none. |
| HttpServer.PathOf | listener-head/listener-http-server.hpp:56-60 | Defines the query-string cut. See `PathOfSpec`. |
| HttpServer.Route | listener-head/listener-http-server.hpp:62-68 | The routing as written, with the 12-character prefix. See `BlockStatsUnreachable`. |
| HttpServer.RouteFixed | listener-head/listener-http-server.hpp:66-67 | The routing with the 13-character prefix. See `BlockStatsRoutedWhenFixed`. |
| HttpServer.HandleRequest | listener-head/listener-http-server.hpp:48-81 | Defines `handle_request`. See `HandleRequestSpec`. |
| HttpServer.BlockStatsUnreachable | listener-head/listener-http-server.hpp:62-68 | As written: no path reaches the block-stats report, and the other two routes match exactly their literals. |
| HttpServer.BlockStatsPathNotFound | listener-head/listener-http-server.hpp:66-79 | As written: "/block_stats/x" is answered 404. |
| HttpServer.BlockStatsRoutedWhenFixed | listener-head/listener-http-server.hpp:66-67 | Corrected: with the 13-character prefix, "/block_stats/<id>" reaches the block-stats report with <id>; the other routes are unchanged. |
| HttpServer.StatsReportSpec | listener-head/listener-http-server.hpp:142-167 | The stats report lists at most the 10 newest blocks, newest first, and the counter unchanged while it fits in int64. |
| HttpServer.BlockStatsIgnoresId | listener-head/listener-http-server.hpp:194-213 | The block-stats report is the same whatever id text the path carried: a default id is looked up. |
| HttpServer.HandleRequestSpec | listener-head/listener-http-server.hpp:48-140 | Every response's Content-Length is the length of its body. The code is 404 exactly on an unrouted path. The recent-blocks body is the 100-entry report. Keep-alive is on for a 200 and follows the request for the 404. |
| AdnlChannel.ReverseSecret | listener-head/adnl-listener-channel.hpp:61-64 | The 32-byte reversal loop: byte i of the result is byte 31 − i of the secret. |
| AdnlChannel.Create | listener-head/adnl-listener-channel.hpp:48-86 | The result is `ChannelOf`: the secret, key choice, ids and error prefixes of the source. |
| AdnlChannel.ChannelOf | listener-head/adnl-listener-channel.hpp:48-86 | Defines `create`: secret, reversal, key choice, ids, then encryptor and decryptor. See `KeysMirror`, `ChannelIdsMirror` and `CreateErrors`. |
| AdnlChannel.SelectKeys | listener-head/adnl-listener-channel.hpp:66-75 | The key choice by comparing the two node ids. See `KeysMirror` and `SelfChannelIdsCoincide`. |
| AdnlChannel.SecretReversalInvolutive | listener-head/adnl-listener-channel.hpp:61-64 | Reversing twice gives the secret back. |
| AdnlChannel.KeysMirror | listener-head/adnl-listener-channel.hpp:66-75 | Two distinct ends pick mirror keys: what one encrypts with, the other decrypts with. The two keys differ unless the secret is a palindrome. |
| AdnlChannel.ChannelIdsMirror | listener-head/adnl-listener-channel.hpp:77-78 | So one end's incoming channel id is the other end's outgoing one, and the other way round. |
| AdnlChannel.SelfChannelIdsCoincide | listener-head/adnl-listener-channel.hpp:71-74 | A channel to oneself uses the secret both ways, so its two ids coincide. |
| AdnlChannel.CreateErrors | listener-head/adnl-listener-channel.hpp:57-81 | Errors come in source order (secret, encryptor, decryptor), each with its prefix. A failure happens exactly when one of the three fails. |

## Left out

- Logging, the actor timers (`alarm_timestamp`), promises and the actor mailbox: each handler is one sequential step, and periodic actions are explicit calls.
- The tracker's mutex: each tracker method is one atomic step.
- Floating point: the average and processing times are `real`, so IEEE rounding is not modelled. Timestamps are whole seconds, or milliseconds in the validator manager.
- TL decoding, BlockQ parsing, `td::json_decode`, base64, Ed25519 and AES key operations, `compute_short_id` and `IPAddress::init_ipv4_port`: foreign code whose outcomes are inputs.
- A JSON number is the integer its text denotes: text with a fraction or exponent, which `to_integer` would cut short, is not modelled.
- DHT and overlay traffic in the implementation's connection manager: `discover_overlay_peers`, `lookup_peer_address` and `lookup_peers_via_dht` only issue foreign queries. The model represents them by the overlay id `DiscoverNewPeers` chooses.
- `create_ping_query`: the model represents it as part of a `Connect`. Its outcome comes back as `UpdatePeerStatus`'s `success` input.
- `ListenerConnections.ListenerConnectionManager.constructor`: the declaration of this variant's class is not part of this model, so the manager starts from any given state.
- `HeadImpl.ListenerHeadManager.constructor`: the fields the implementation file adds to the header's class are declared elsewhere, so the counters and overlays start from given values.
- `start_listening_overlay`, `create_public_overlay` and `delete_overlay`: represented by the overlay ids they are called for. The overlay options (256 neighbours, member flags 2) are not modelled.
- The FEC, FEC-short and unicast handlers of the overlay implementation only log. They make no tracker call, and the model says exactly that through `OverlayMessageTracks`.
- `ListenerOverlayCallback`, `add_known_validator` and `connect_to_node`: each forwards a single message to another actor or to ADNL.
- The header manager's `tear_down` and `stop_listening`: they only log.
- The header manager's `get_total_bytes`, `get_full_stats_json` and its string `get_block_stats`: they call tracker methods that do not exist in block-reception-tracker.hpp.
- Validator manager: `alarm`, `print_stats` and the directory creation in `start_up` are logging or I/O. The many stubs that only answer "not ready", or succeed without doing anything, are out too. `get_top_masterchain_state` stands for them.
- `ValidatorHead.ListenerHeadManager.PrepareStats`: the providers' callbacks are taken to reply before `prepare_stats` returns. Each reply is an input of that call (`Replies`). A callback that resolves its promise later writes through a dangling reference in the source, and the model does not capture that.
- `ValidatorHead.ListenerHeadManager.PrepareStats`: the three masterchain entries (block id text, seqno, age from the wall clock) are an input, `mcEntries`. No path of the source ever makes them appear: `NeverFilledStats`.
- The block data cache and its LRU queue are never filled by the source. The model keeps the cache and its limit but not the queue.
- listener-head-options.hpp, the factory files, kafka_publisher, adnl-extension.hpp, listener-head-main.cpp and main.cpp: command-line handling, wiring and an external publisher, outside the core.
- `HttpServer.HandleRequestSpec`: the JSON text of a report is the `render` parameter, so its contract speaks of report documents rather than bytes. The source writes the "recent_blocks" and "blocks" arrays as JSON strings that hold the array text (`extract_string_unsafe` of an inner builder). `Report` presents them as structured lists, so the extra level of string quoting is not modelled. The source's Content-Length is `json_content.size()`, a byte count (lines 92, 111, 130), while the model counts characters: the two agree because every report is ASCII text. The model assumes that and does not model a UTF-8 encoding.
- ListenerConnections.UpdateConnectsDueValidators, ListenerConnections.UpdatePriorityFollowsValidatorSet, ListenerConnections.ConnectFor, ListenerConnections.Connects, ListenerConnections.ListenerConnectionManager.ConnectToPeer, ListenerConnections.ListenerConnectionManager.UpdateConnections, ListenerConnections.ListenerConnectionManager.ReconnectValidators and ListenerConnections.ListenerConnectionManager.ReconnectOthers: listener-connection-manager-impl.cpp reads `NetworkConfig::VALIDATOR_PRIORITY` and `NetworkConfig::CONNECTION_RESET_INTERVAL` (lines 163, 232, 250). No file of the core declares `NetworkConfig`, and the only declared constants are `NetworkOptimizationConfig`'s (listener-network-config.hpp:9-16). The model takes `NetworkConfig` to be `NetworkOptimizationConfig`: priority 2^32 − 1 and a 3600 s interval. A build whose `NetworkConfig` holds other values, such as a 600 s interval, has a different schedule than these members state.
- ReceptionTracking.BlockReceptionTracker.TrackBlockReceived: the source takes the source node as an `AdnlNodeIdShort` and the address as a `td::IPAddress`. Its callers in listener-head-manager.hpp:198-203 pass `std::string`s, so the model keeps both as strings and does not model the conversion.
- AdnlChannel.ChannelOf and AdnlChannel.Create: when the encryptor or decryptor cannot be created, the source has already written the `in_id`/`out_id` out-parameters (adnl-listener-channel.hpp:77-78 run before 80-81). The model's `Failure` carries only the error text, not those ids.

## Findings

| source | as written | input that shows it | evidently intended | confidence | as-written member | corrected member |
|---|---|---|---|---|---|---|
| listener-head/block-reception-tracker.hpp:42-50 | The capacity eviction pops the oldest history entry but never erases its id from `recent_blocks_`, so the index grows without limit. | 10 001 blocks with distinct ids: the index holds 10 001 entries while the history holds 10 000. | The index shrinks with the history. | not executed | ReceptionTracking.IndexExceedsCap | ReceptionTracking.TrackEvictingIndexBounded |
| validator/listener-head-manager.cpp:190-200 | Every reception pushes its id onto the FIFO, even a repeated one. An eviction may then pop a stale id whose entry is already gone, and the map stays over the limit. | Limit 1, then blocks a, a, b, c: two blocks remain tracked. | `received_blocks_.size() <= max_blocks_to_track_` after every call. | not executed | ValidatorHead.RepeatedIdBreaksBound | ValidatorHead.RecordLruKeepsBound |
| listener-head/listener-http-server.hpp:66-67 | `path.substr(0, 12)` is compared with the 13-character "/block_stats/", so the test can never succeed. | The path "/block_stats/x" is answered 404. | Paths of the form "/block_stats/<id>" reach `get_block_stats_json`. | not executed | HttpServer.BlockStatsUnreachable | HttpServer.BlockStatsRoutedWhenFixed |
