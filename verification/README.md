# MeshLink node: a verified model

A Dafny 4.11 model of the Raspberry Pi node of the MeshLink mesh relay, and proofs of what its documentation and
tests promise. `dafny verify dfyconfig.toml` checks everything.

| file | models |
|---|---|
| `Wire.dfy`, `Core.dfy` | bytes, and the parts of meshlink-core the node uses: header layout is concrete (as the parity vectors show it); hashing, signatures, sealing and payload formats are arbitrary functions |
| `Framing.dfy`, `Gatt.dfy`, `Notify.dfy` | the BLE byte path: framing and reassembly, per-phone bookkeeping, the back-pressured notification queue |
| `ZoneTable.dfy`, `ZoneSync.dfy`, `Backhaul.dfy` | the routing table, the gossip that fills it, routing and demultiplexing of datagrams |
| `Directory.dfy` | the attendee directory, its cache file and its sync thread |
| `Location.dfy`, `LocationRuns.dfy` | capability-gated location serving and its whole-run properties |
| `LocationThreads.dfy`, `LocationIsolation.dfy` | queries on several threads: rate, soundness and revocation, and non-interference, under any interleaving |
| `RelayExact.dfy`, `RelayServing.dfy` | what the handler does with each kind of frame in full, and location serving from the arriving frames to the asker's phone |
| `Relay.dfy`, `RelayRuns.dfy`, `Counters.dfy` | the relay's handler, what it lets out over runs and chains of relays, and its counters under any thread interleaving |
| `Flood.dfy`, `MeshDelivery.dfy` | a network of relays over the backhaul: floods die out, and packets reach the phones of other nodes |
| `WifiConfig.dfy` | deployment config, rendered hostapd.conf, and the SSID read back |

The objects the source updates in place are classes; each method's contract gives its result and new state by a
function on values, and the lemmas about whole runs are about those functions. Times are `real`. A clock reading is
a parameter of the call that takes it, so the results hold for every clock, except where a lemma says that the clock
does not go back. The pipeline accepts a packet only if it parses, has a ttl of at least 1, and its id is not
remembered; every other check of the pipeline is an arbitrary verdict. Where a lemma speaks of what is sent, it takes
for granted that the packet built around a sealed answer is a LOCATION_RESPONSE.

Where the code and its documentation differ, the model follows the code:

- "Chunk boundaries carry no meaning" (framing) holds of exactly the clean streams and of a bare bad length prefix:
  `Framing.BoundariesCarryNoMeaning`.
- An announcement decoder that "never raises" does raise, on exactly two kinds of frame at JSON-tree level: one nested
  too deeply for the parser's stack, and one with an infinite zone number: `ZoneSync.DecodeRaises`.
- "Tolerates ~3 missed announcements": at 60 s and 180 s it is two, and only without jitter:
  `ZoneSync.ShippedTolerance`.
- "A flaky peer node must never crash the relay serving local phones" (batman_backhaul.py:24-25): only socket errors
  are caught, so an announced address that is no endpoint makes the handler throw before the fan-out, and packets for
  that zone do not reach the node's own phones: `RelayRuns.PhonesHangOnAddress` says exactly when,
  `RelayRuns.OneAnnouncementSilencesTheCell` how one announcement does it.
- A directory sync "keeps the previous copy on any failure" and is to go on working offline: it does keep the copy, but
  returns False only for an OSError, ValueError or KeyError of the fetch; a reply cut short, rows it cannot index and a
  cache file it cannot write all raise (`Directory.DirectoryCache.Refresh`). The sync thread has no handler, so the
  first such failure ends it, and the copy stays what the last complete fetch made it
  (`Directory.FirstRaiseFreezesCopy`, `Directory.OneCutReplyFreezesCopy`).
- A cache file that is there but cannot be read, or has rows of the wrong type, stops the node instead of being
  synced anew (`Directory.DirectoryCache.Load`, `Directory.UnreadableFileStopsTheNode`).
- Revoking a grant does not stop a query that has already passed the check, which is made outside the lock:
  `LocationThreads.ServedAfterRevocation`; it stops every other one: `LocationThreads.RevocationStopsCalls`.
- A query that passes every check, from a requester listed without a usable sealing key, throws, and so is not passed
  on the way every refused query is: `LocationRuns.ThrowsExactly`, `RelayRuns.RefusalLeavesNoTrace`, and a run that
  does it in `RelayRuns.ThrowingQueryIsNotPassedOn`.
- The counter comment says queries are consumed at the node; only beacons are.

## Model

| member | source | states |
|---|---|---|
| Core.LaidOutParses | node/relay.py:22-24 | every field of a packet laid out in the header's order is found again, for every packet within the size limits and no other |
| Core.ParsedWasLaidOut | tests/fixtures/parity_vectors.json:7-22 | whatever parses was laid out so |
| Core.SignedRegionCovers | phase4-parity-reconciliation.md:19-22 | signed regions of packets of one length agree exactly when every byte but the two hop bytes and the signature does |
| Core.KeyNamesGrant | node/location/authz.py:56-58 | a revocation key belongs to one grant only, and names its issuer |
| Framing.FrameLayout | node/ble/framing.py:15-17 | a frame is the length in two bytes, high one first, and the packet; there is none above 65535 bytes |
| Framing.ChunkJoins | node/ble/framing.py:20-22 | the pieces join to the framed bytes; all are full size but the last, none is empty |
| Framing.DecodeUnique | node/ble/framing.py:3-6 | any reading of a stream as whole frames and a remainder is the one the decoder reports; a bad prefix after them makes it corrupt |
| Framing.DecodeShape | node/ble/framing.py:39-47 | what is decoded re-frames to the stream, up to an incomplete frame that is kept or a bad prefix at which everything left is dropped |
| Framing.FrameRoundTrip | node/ble/framing.py:10-17 | framing then decoding gives the packet back exactly when it has at most 460 bytes |
| Framing.FeedLeavesNoFrame | node/ble/framing.py:31-48 | after any feed the buffer holds no whole frame and is under 462 bytes; after a corrupt one it is empty |
| Framing.FeedsRefineDecode | node/ble/framing.py:31-48 | on a clean stream, however cut, the feeds return and leave what one decode of the whole stream does |
| Framing.BoundariesCarryNoMeaning | node/ble/framing.py:4-6 | cutting is irrelevant if and only if the stream is clean or is a bare bad prefix |
| Framing.FrameAssembler.Feed | node/ble/framing.py:31-48 | the loop over the mutable buffer ends, and returns and leaves what the decoder says of buffer plus data |
| Framing.FrameAssembler.Reset | node/ble/framing.py:50-51 | the buffer is empty |
| Gatt.GattServer.HandleChunk | node/ble/base.py:62-73 | state and callbacks after a write: only this phone's reassembler moves; a corrupt stream still counts as contact |
| Gatt.GattServer.PeerConnected | node/ble/base.py:75-80 | state and callbacks after a connect |
| Gatt.GattServer.PeerDisconnected | node/ble/base.py:82-87 | state and callbacks after a disconnect: the reassembler goes too |
| Gatt.PeerIsolation | node/ble/base.py:62-87 | for every interleaving, a phone's packets are those of one assembler on its own chunks, renewed at each of its disconnects |
| Gatt.CleanSessionDelivered | node/ble/base.py:1-9 | a phone that is new or has disconnected, and then writes whole frames in any pieces, with connect events anywhere among them and any traffic of other phones, has exactly its packets delivered |
| Gatt.Tracking | node/ble/base.py:62-87 | connected phones are exactly those heard from since their last disconnect; only they have assemblers, none holding a whole frame |
| Gatt.ConnectFires | node/ble/base.py:75-80 | on_connect is called for a connect event exactly when the phone was not live |
| Gatt.ConnectsAreSeparated | node/ble/base.py:75-87 | two on_connect calls for one phone have a disconnect of it between them |
| Gatt.CallbacksExactly | node/ble/base.py:62-87 | every callback each event makes: one on_connect only for a phone that was not live, one on_disconnect always, packets only for the writer, none without a callback set |
| Notify.CoreBluetoothGattServer.NotifyOne | node/ble/corebluetooth.py:180-190 | the new state for every branch: dropped before TX exists, kept behind a backlog, else offered, and kept if refused |
| Notify.CoreBluetoothGattServer.FlushPending | node/ble/corebluetooth.py:192-199 | the loop moves accepted chunks across until the first refusal |
| Notify.CoreBluetoothGattServer.SendPacket | node/ble/base.py:91-99 | all chunks of the framed packet are submitted in order; fails only above 65535 bytes |
| Notify.FlushKeepsLine | node/ble/corebluetooth.py:192-199 | flushing loses and reorders nothing and stops only when empty or just refused |
| Notify.ChunksConserved | node/ble/corebluetooth.py:19-20 | for every schedule, accepted then pending is exactly the chunks of the packets sent since TX exists |
| Notify.WaitingIsOwed | node/ble/corebluetooth.py:187-199 | in every run under every schedule, chunks wait only after a refusal that no acceptance has followed, and exactly the offers taken were accepted |
| Notify.WillingPlatformTakesAll | node/ble/corebluetooth.py:187-190 | a platform that takes everything has every chunk of every packet at once |
| Notify.ReadyAgainClears | node/ble/corebluetooth.py:192-199 | a ready event after which the platform takes everything empties the queue |
| Notify.PiecesFitNotifications | node/ble/base.py:98-99 | a packet becomes full notifications of 180 bytes but the last, joining to its frame |
| Notify.EndToEndDelivery | node/ble/base.py:91-99 | any re-chunking of the accepted bytes reassembles to a prefix of the packets sent, and to all of them once nothing is pending |
| ZoneTable.DynamicZoneTable.LearnZone | node/backhaul/dynamic_zone_table.py:51-54 | the zone's entry is the new address and time; nothing else changes |
| ZoneTable.DynamicZoneTable.Lookup | node/backhaul/dynamic_zone_table.py:56-66 | fresh learned address, else pinned, else none |
| ZoneTable.DynamicZoneTable.ForgetStale | node/backhaul/dynamic_zone_table.py:68-75 | removes and reports, once each, exactly the entries stale at their own clock reading |
| ZoneTable.DynamicZoneTable.KnownZones | node/backhaul/dynamic_zone_table.py:77-83 | exactly the zones a lookup would find |
| ZoneTable.DynamicZoneTable.PeerCount | node/backhaul/dynamic_zone_table.py:85-87 | how many such zones are not the node's own |
| ZoneTable.DynamicZoneTable.Snapshot | node/backhaul/dynamic_zone_table.py:89-97 | the same zones, each with the address a lookup gives |
| ZoneTable.HistoryDecides | node/backhaul/dynamic_zone_table.py:56-75 | for every history, a lookup is decided by the last announcement while within the ttl, else by the pinned seed |
| ZoneTable.PruningIsInvisible | node/backhaul/dynamic_zone_table.py:68-75 | forget_stale calls inserted or removed anywhere change no later answer |
| ZoneTable.PrunedToTheFresh | node/backhaul/dynamic_zone_table.py:68-75 | after a pruning pass at the end of any history exactly the zones last heard within the ttl have an entry |
| ZoneTable.SilenceReverts | node/backhaul/dynamic_zone_table.py:6-8 | a silent zone keeps its route until exactly the ttl, then stays pinned or unknown until heard again |
| ZoneSync.AnnouncementRoundTrip | node/backhaul/zone_sync.py:30-54 | decoding an encoded announcement gives it back, address tuples included |
| ZoneSync.AnnouncementsAreTold | node/backhaul/zone_sync.py:30-54 | two announcements that decode alike are the same one |
| ZoneSync.DecodeRaises | node/backhaul/zone_sync.py:39-54 | at JSON-tree level, decoding raises exactly on a frame nested too deeply to parse, and on an object with a node id and an infinite zone number |
| ZoneSync.DecodeCanRaise | node/backhaul/zone_sync.py:46-52 | a frame of the second kind |
| ZoneSync.DecodedExactly | node/backhaul/zone_sync.py:39-54 | a frame is read as a given announcement exactly when it is an object with the three fields and they stand for it |
| ZoneSync.HearingTakesEffect | node/backhaul/zone_sync.py:105-113 | another node's announcement becomes the zone's route at once, no other zone changes, and the node's own does nothing |
| ZoneSync.ZoneSyncer.AnnounceNow | node/backhaul/zone_sync.py:100-103 | what is broadcast reads back as this node's own id, zone and address |
| ZoneSync.ZoneSyncer.OnControl | node/backhaul/zone_sync.py:105-113 | other nodes' announcements are learned; the node's own echo and malformed frames leave the table alone |
| ZoneSync.ZoneSyncer.Loop | node/backhaul/zone_sync.py:93-98 | one own announcement and one pruning pass each time it wakes |
| ZoneSync.PassesKeepTheFresh | node/backhaul/zone_sync.py:93-98 | the entries left after any number of wakes are those every pass found fresh |
| ZoneSync.HeardWasAnnounced | node/backhaul/zone_sync.py:105-113 | in every run of the network, what a node heard last for a zone was announced exactly so by another node |
| ZoneSync.GossipSafety | node/backhaul/zone_sync.py:3-8 | in every reachable state, over a lossy, reordering, duplicating channel, each route is the last announcement heard within the ttl, made by another node, or the pinned one |
| ZoneSync.ArrivedIsRouted | node/backhaul/zone_sync.py:105-113 | from any state of the network, an announcement that arrives at another node is that node's route |
| ZoneSync.AlwaysRoutable | node/backhaul/dynamic_zone_table.py:26-29 | at most k lost in a row with bounded jitter that fits the ttl: routable at every instant from the first receipt |
| ZoneSync.BoundIsExact | node/backhaul/dynamic_zone_table.py:99-100 | whenever that sum exceeds the ttl, some such feed leaves the zone without a route |
| ZoneSync.ToleranceIsExact | node/backhaul/dynamic_zone_table.py:99-100 | a zone stays routable under every feed with at most k losses in a row and bounded jitter if and only if the sum fits in the ttl |
| ZoneSync.ShippedTolerance | node/backhaul/dynamic_zone_table.py:26-29 | a table with the 180 s ttl, fed every 60 s: two losses in a row are tolerated only without jitter, one with up to 60 s of it, none with up to 120 s, three never |
| Backhaul.DemuxSeparates | node/backhaul/batman_backhaul.py:143-163 | whichever callbacks are set: the k-th datagram before the socket closes that is no own echo and has a callback is the k-th delivery, to zone-sync if it is a control frame and to the relay if not; there are no others |
| Backhaul.AnnouncedAddressWorks | node/backhaul/batman_backhaul.py:47-48 | every address a node can announce, whose host resolves, is sent to at the endpoint meant |
| Backhaul.NamedIsUsed | node/backhaul/batman_backhaul.py:47-48 | for an address that names a host and port: when it is sent to, when it is lost, when sending throws |
| Backhaul.UnnamedIsUnfit | node/backhaul/batman_backhaul.py:111-116 | every other address makes a send throw |
| Backhaul.RoutesFollowHistory | node/backhaul/batman_backhaul.py:92-103 | after any history of announcements and pruning, a foreign zone is flooded exactly when nothing, or null, is promised for it, and sent to the promised endpoint exactly when there is one |
| Backhaul.BatmanBackhaul.ForwardToZone | node/backhaul/batman_backhaul.py:92-119 | own zone: nothing; known zone: its endpoint; unknown (or null) address: the broadcast address; an unresolvable host is dropped; raises exactly for an address that is no pair of host and port, a host name that cannot be encoded, or a port out of range |
| Backhaul.BatmanBackhaul.BroadcastToAllNodes | node/backhaul/batman_backhaul.py:105-106 | one datagram to the broadcast address unless the send fails |
| Backhaul.BatmanBackhaul.RecvLoop | node/backhaul/batman_backhaul.py:143-158 | the loop hands over every datagram before the socket closes, filtered and demultiplexed, in order |
| Directory.LookupFindsLast | node/directory/cache.py:50-55 | a lookup finds the last row whose key hashes to the id, and fails only if there is none; entries are filed under their own key's hash |
| Directory.NamesFindLast | node/directory/cache.py:50-56 | a username finds the last row that has it, and fails only if there is none |
| Directory.DirectoryCache.Load | node/directory/cache.py:42-48 | starts from the cached rows when usable, empty when there is no file or reading or indexing it raises a ValueError or KeyError, and not at all on any other exception |
| Directory.StartsExactly | node/directory/cache.py:42-48 | the node starts with no file, a complete one, or one whose reading or first bad field is a ValueError or KeyError, and with no other |
| Directory.UnreadableFileStopsTheNode | node/directory/cache.py:42-48 | an OSError in reading an existing file stops the start, where the same error of a fetch keeps the copy and a file that is not JSON is ignored |
| Directory.DirectoryCache.IndexUsers | node/directory/cache.py:50-55 | both indexes are replaced together, or neither; the first bad field, all usernames before all keys, decides the exception |
| Directory.IndexingRaisesFirst | node/directory/cache.py:50-52 | indexing raises what the first bad username raises, else what the first bad key does, and nothing for complete rows |
| Directory.DirectoryCache.Refresh | node/directory/cache.py:57-72 | the old copy survives every failure before indexing; False exactly when getting at the rows raises an OSError, ValueError or KeyError; True exactly when the rows are indexed and written; all else raises, a failed write with the new copy in place |
| Directory.RaisedIsFirstWrong | node/directory/cache.py:61-70 | which exception a refresh raises |
| Directory.DirectoryCache.Loop | node/directory/cache.py:74-88 | refreshes until the first that raises, that one included, and leaves what those refreshes make of the copy |
| Directory.MadeUpToFirstRaise | node/directory/cache.py:86-88 | if any refresh is not made, the last one made raised and none before it did |
| Directory.CopyIsLastComplete | node/directory/cache.py:57-72 | over any refreshes the copy is the index of the last fetch that could be indexed, or the first copy |
| Directory.FirstRaiseFreezesCopy | node/directory/cache.py:86-88 | once a refresh has raised, nothing that could be fetched later changes the copy: it is that of the last complete fetch up to then |
| Directory.OneCutReplyFreezesCopy | node/directory/cache.py:61-68 | one reply cut short, then good rows: the good rows are never fetched |
| Directory.DirectoryCache.ByUsername | node/directory/cache.py:90-92 | the row filed under the name, if any |
| Directory.DirectoryCache.AccountFor | node/directory/cache.py:100-107 | finds a row for the key's hash, never for a key that is not 32 bytes |
| Location.LocationStore.Update | node/location/store.py:39-44 | overwrites this identity's row, no other |
| Location.LocationStore.Get | node/location/store.py:46-48 | the stored row, if any |
| Location.LocationStore.BeaconAge | node/location/store.py:50-51 | whole seconds since the beacon, never negative |
| Location.LocationStore.Forget | node/location/store.py:59-61 | this identity's row is gone, no other |
| Location.LocationAuthz.HandleQuery | node/location/authz.py:61-129 | reply and new state for every branch; the limiter is charged even when the query is refused later |
| Location.LocationAuthz.HandleRevoke | node/location/authz.py:131-148 | adds the key exactly when the sender hashes to its issuer |
| Location.LocationService.HandleNodeTerminated | node/location/service.py:73-104 | beacons are consumed, queries and revocations are not, each with its effect |
| Location.LocationService.IngestBeacon | node/location/service.py:106-123 | a well-formed beacon is stored under its sender's key |
| LocationRuns.StoreIsLastBeacon | node/location/store.py:34-44 | over every run the store holds, for each key, exactly its last well-formed beacon |
| LocationRuns.RevokedIsHistory | node/location/authz.py:131-148 | the revoked set is exactly what issuers have revoked; it only grows |
| LocationRuns.DirectoryIsLastSync | node/directory/cache.py:57-72 | the directory in use is the last sync that could be indexed, or the first one |
| LocationRuns.ChargedExactly | node/location/authz.py:83-103 | the limiter is charged for exactly the queries that present a good, unrevoked token an interval after the last one charged, or after time zero |
| LocationRuns.RefusedForFirst | node/location/authz.py:71-111 | a query is refused for the first reason that applies, in terms of what has happened before |
| LocationRuns.ServedExactly | node/location/authz.py:71-129 | a position is served if and only if an unrevoked token, verified under its issuer's listed key, names the sender, an interval has passed, and it is that issuer's last beacon |
| LocationRuns.ServedUnderIssuerKey | node/location/authz.py:83-120 | the served position belongs to a key that hashes to the issuer; its age is not negative |
| LocationRuns.ThrowsExactly | node/location/authz.py:109-129 | the one kind of query that ends in an exception |
| LocationRuns.AQueryThrows | node/location/authz.py:126-129 | such a query: two synced rows, one beacon, one verified query |
| LocationRuns.RevocationIsPermanent | node/location/authz.py:95-96 | once its issuer has revoked it, a grant is refused in every continuation, queries taken one after another |
| LocationRuns.AdmittedAreSpaced | node/location/authz.py:98-103 | admitted and served times of a pair rise by at least the interval, for any clock |
| LocationRuns.QueryRateBound | node/location/authz.py:15-17 | at most floor(length / interval) + 1 answers to a pair in any window |
| LocationRuns.OnePerMinute | node/location/authz.py:40 | at the shipped interval, never two answers within a minute |
| LocationRuns.NonInterference | node/location/authz.py:71-129 | removing any choice of events, by position, other than the requester's queries about the target, the target's beacons and revocations, and syncs, changes no reply to that requester about that target |
| LocationThreads.Uninterrupted | node/location/authz.py:61-129 | a query cut at its shared reads and writes, left to itself, does what the one-step query does |
| LocationThreads.LogIsSpaced | node/location/authz.py:98-103 | for every interleaving and any clock readings, the readings charged to a pair rise by the interval in lock order |
| LocationThreads.ChargesAreCalls | node/location/authz.py:98-103 | for every interleaving, charges to a pair and its admitted calls agree in every window: none lost, none charged twice |
| LocationThreads.ThreadedRateBound | node/location/authz.py:15-17 | for every interleaving, at most floor(length / interval) + 1 calls of a pair with readings in a window are ever served |
| LocationThreads.ThreadedServingIsSound | node/location/authz.py:83-129 | for every interleaving, a served position was, at some moment, the last beacon of a key hashing to the issuer, and the token had verified under that key, unrevoked, no later |
| LocationThreads.RevocationStopsCalls | node/location/authz.py:95-96 | once revoked, no call that has not yet passed the check ever passes it, in any continuation |
| LocationThreads.ServedAfterRevocation | node/location/authz.py:95-129 | a call that has passed it is still served: beacon, lookup, check, revocation, limiter, fetch, answer |
| LocationIsolation.ThreadedNonInterference | node/location/authz.py:71-129 | out of any interleaving, remove any calls with all their steps, except the requester's about the target, and any events but the target's beacons and revocations and syncs: each of those calls is at the same step, charged at the same reading, with the same reply |
| LocationIsolation.PairAdvancesAlike | node/location/authz.py:83-129 | a step of the pair's call reads the same in two worlds that agree on the directory, the target's rows and revocations, and the pair's limiter entry |
| Relay.RelayPipeline.ProcessPacket | node/relay.py:160-164 | delivers exactly a parsed packet with ttl left, an id it does not remember and a passing verdict, then remembers that id and no other; a forward copy is one hop older, carries the spray share, and is otherwise the packet |
| Relay.NodeRelay.HandlePacket | node/relay.py:131-214 | pipelines, location state, sends in order, counters and exception for every branch, as `RelayExact` spells them out |
| Relay.NodeRelay.HandlePresentation | node/relay.py:216-243 | validated by its own pipeline; counted, then spread to nodes, only once its token is cached; a cross-node send that throws leaves the handler |
| Relay.NodeRelay.CrossNodes | node/relay.py:187-192 | broadcast zone to all nodes, foreign zone to its node, own zone to none; the packet untouched; a send that throws is not counted |
| Relay.NodeRelay.SendToPhones | node/relay.py:204-207 | one send to each peer but the sender, in list order |
| RelayRuns.HopsKeepMeaning | node/relay.py:63-72 | packets equal outside the two hop bytes parse alike and have the same signed region |
| RelayRuns.AcceptedCopy | node/relay.py:202-203 | an accepted packet's ttl can be decremented, and its local copy has exactly that change and perhaps a spray share |
| RelayRuns.WhatGoesOut | node/relay.py:173-214 | every visible send is the packet passed on to others, or the answer to the asker, whose contents `RelayServing` gives |
| RelayRuns.AcceptedIsPassedOn | node/relay.py:184-208 | an accepted packet goes to exactly the nodes and phones it should, and is counted so, unless its zone's address makes the send throw: then it goes to no one |
| RelayRuns.PhonesHangOnAddress | node/backhaul/batman_backhaul.py:97-116 | an accepted packet for another zone, with ttl above 1, reaches the other phones if and only if the table knows no address for the zone or one that a send does not throw on |
| RelayRuns.OneAnnouncementSilencesTheCell | node/backhaul/zone_sync.py:105-113 | one announcement with a number for an address is learned, and a packet for that zone then reaches no phone, node or counter, where it did before |
| RelayRuns.EchoesAreDropped | node/relay.py:112-114 | an accepted packet coming back, at whatever ttl, is dropped while remembered |
| RelayRuns.ControlFramesStayOut | node/relay.py:132-148 | telemetry and proxy frames go to their service, if wired, and touch no pipeline, counter or relay path |
| RelayExact.OnlyTakenGoesOut | node/relay.py:160-164 | whatever a phone or node is sent, the frame was not dropped: it parsed, had ttl left, was not remembered by its pipeline, and passed the other checks |
| RelayExact.DroppedIsOnlyCounted | node/relay.py:160-164 | a frame its pipeline drops changes two counters and nothing else |
| RelayExact.PresentationSpreads | node/relay.py:216-243 | sends, counters, memory and exception of every presentation: a taken one with a good token goes to all nodes, its zone's node or none, any other nowhere |
| RelayExact.BeaconStaysHere | node/relay.py:178-182 | sends, counters and all of the new state for an accepted beacon |
| RelayExact.TakenGoesOut | node/relay.py:184-208 | the exact sends, in order, and counters of every other accepted packet: the answer, the nodes, the phones |
| RelayExact.ThrownStopsHere | node/relay.py:178-182 | a query that throws is remembered, counted as accepted and charged, and sends nothing |
| RelayExact.FanOutInOrder | node/relay.py:204-207 | the n-th listed peer that is not the sender gets the n-th copy, and there are no more |
| RelayRuns.Containment | node/relay.py:173-182 | at any point of any run no beacon leaves to a phone or node, and no presentation to a phone, nor to a node before its token is accepted |
| RelayRuns.BeaconsEscapeWithoutService | node/relay.py:178-182 | an accepted beacon reaches the other phones exactly when no location service is wired and its cross-node send does not throw |
| RelayRuns.RefusalLeavesNoTrace | node/location/service.py:80-98 | beside a relay without the service: a served query adds one send, to the asker; a refused one changes no send, counter or exception; one that throws stops there |
| RelayRuns.ThrowingQueryIsNotPassedOn | node/relay.py:178-208 | a run in which one does: nothing is sent where a relay without the service sends to the phones |
| RelayRuns.UniformRefusal | node/location/authz.py:9-13 | over any run of traffic, the sends for a refused query are those of a relay with no location service |
| RelayServing.ServiceSeesAccepted | node/relay.py:178-180 | over any run of frames and syncs, the relay's location state is that of the service alone on the packets accepted |
| RelayServing.EntitledIsAnswered | node/location/service.py:80-92 | over any run, an entitled query is answered first of all that is sent: the last beacon's fix, zone and true age, sealed to the asker's listed key, signed for the node's zone with ttl 3 and spray 8 |
| RelayServing.AskerIsOnlyAnswered | node/location/service.py:80-98 | over any run, anything sent back to the phone a frame came from is such an answer to an entitled query |
| RelayRuns.ChainIntegrity | node/relay.py:63-72 | along any chain of relays the signed region is intact, each air hop costs one ttl, and there are fewer than the ttl |
| Counters.HandlerIsLegal | node/relay.py:154-233 | every call bumps counters in one of ten orders, whatever happens |
| Counters.NoBumpLost | node/relay.py:116-123 | a snapshot in any interleaving reads exactly the bumps made |
| Counters.BumpsAddUp | node/relay.py:116-118 | bumping a list adds to each counter what the list has of it |
| Counters.TrafficConserved | node/relay.py:94-106 | received = accepted + dropped + cached + in flight, and the two inequalities, in every snapshot |
| Flood.HandleSpreads | node/relay.py:187-192 | what a node puts on the backhaul is the packet it got, and only as a pipeline starts to remember it |
| Flood.ActMeasure | node/backhaul/batman_backhaul.py:92-106 | every delivery lowers a message's measure, no injection raises it, and forgetting adds at most one per node |
| Flood.FloodDiesOut | node/relay.py:112-114 | in any mesh with any tables, order and loss, a message is delivered at most 2 N^2 times plus N per forgetting |
| Flood.OneSendPerPipeline | node/relay.py:112-114 | a node sends a message over the backhaul at most once from each pipeline while it is remembered |
| Flood.OneCopyPerPhone | node/relay.py:204-207 | a phone is sent a message others handed in at most once, plus once per forgetting, however often it arrives |
| MeshDelivery.AcceptedTakesOff | node/backhaul/batman_backhaul.py:92-106 | an accepted packet for everyone, or for a zone nobody is known to serve, puts one datagram in flight to every node; one for a known zone, to its node |
| MeshDelivery.PresentationTakesOff | node/relay.py:240-243 | the same of a presentation whose token is good |
| MeshDelivery.Arrives | node/backhaul/batman_backhaul.py:143-158 | a datagram that is neither an own echo nor a control frame is handled as any packet is |
| MeshDelivery.ReachesPhonesElsewhere | node/relay.py:184-208 | a packet accepted at one node reaches the phones of another it is bound for, signed part intact, one hop less |
| WifiConfig.ParseDeploymentConf | node/wifi_ap/deployment_config.py:35-75 | the loop's result, with the first error in order |
| WifiConfig.WovenSplits | node/wifi_ap/deployment_config.py:42 | text put together from lines and line ends of any kind splits into those lines |
| WifiConfig.SplitRejoins | node/wifi_ap/deployment_config.py:42 | and all text is put together so |
| WifiConfig.ReadLineExactly | node/wifi_ap/deployment_config.py:43-56 | blank and comment lines say nothing; any other is a key and value around its first equals sign, or the error that applies |
| WifiConfig.CommentsDoNotMatter | node/wifi_ap/deployment_config.py:44-45 | a blank or comment line may stand anywhere without changing what is read |
| WifiConfig.ValidateExactly | node/wifi_ap/deployment_config.py:58-75 | which error a pair gets, and that it gets none exactly when both values are within the limits |
| WifiConfig.PrintParses | node/wifi_ap/deployment_config.py:11-14 | an acceptable pair printed as key=value lines parses to itself |
| WifiConfig.ParserAccepts | node/wifi_ap/deployment_config.py:62-73 | the parser lets through exactly the pairs within the IEEE 802.11 limits that a line-oriented file can carry |
| WifiConfig.ConfiguredSsid | node/wifi_ap/hostapd.py:48-55 | the first SSID line of the file, if it can be read and has one; a file that cannot be decoded raises |
| WifiConfig.RenderedReadsBack | node/wifi_ap/hostapd_config.py:28-59 | for every parsed config, and whatever the wording of the six comment lines, the rendered file has 23 lines, one of which sets the SSID, and reads back as the parsed SSID |
| WifiConfig.RenderedSettings | node/wifi_ap/hostapd_config.py:33-59 | all 23 lines as they are read back, passphrase, channel and fixed settings included; no file for a channel outside 1 to 13 |

## Left out

- Internals of meshlink-core (signature checks, Bloom filter, token and payload formats, sealing, spray split) are arbitrary functions or verdicts; vendor/meshlink-core is not part of this model.
- Sockets, D-Bus, CoreBluetooth registration, HTTP, files and threads' scheduling appear only as inputs (what arrived, what the platform accepted, what name resolution says, what a fetch returned). A phone transport that throws is not modelled.
- node/backend_proxy.py, node/attestation/organiser_key.py, node/monitoring and node/transport add only easy members.
- JSON text syntax: announcements are JSON trees; text that does not parse is a frame without a tree. Which text is nested too deeply for the parser is not modelled.
- Location.LocationAuthz.HandleQuery: one call is one step; `LocationThreads` cuts it at its shared reads and writes. The relay's handler uses the one-step call.
- Notify.CoreBluetoothGattServer.SendPacket: one call is one step; concurrent senders interleaving their chunks are not modelled, as the source takes no lock there.
- ZoneTable.DynamicZoneTable.ForgetStale: the order of the reported zones (a Python dict's) is not modelled.
- Directory.DirectoryCache.Refresh: what is in the cache file after a write that fails is not modelled; a username that is a number, a boolean or null is not told from a string.
- The list of phones, sorted, the wording of the comments in hostapd.conf, and logging.
- Clock and age arithmetic is over reals; float rounding is not modelled.
