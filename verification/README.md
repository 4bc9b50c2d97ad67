# Verified model of the Solana RPC cluster proxy

The proxy fans several Yellowstone gRPC upstreams into one deduplicated broadcast and fans that out to
filtered client streams; it reconnects and replays, supervises stream lifetimes, tracks node health, routes
RPC calls and rate-limits clients. This project models those parts in Dafny and proves what every run keeps.

`dafny verify dfyconfig.toml` checks everything.

## How it is modelled

* **Interleaved protocols** (dedup worker and evictor, client forwarder, direct upstream manager, subscribe
  supervisors, managed channel) are state machines over values. `Exec(s, es)` runs an arbitrary event
  sequence; an event that is not enabled leaves the state unchanged, so "for all `es`" is "for every
  schedule". Steps are single atomic accesses or awaits. Fields listed under *history* only record what happened.
* **Sequential code** (dedup cache, slot tracker, single-upstream loop, health rounds, limiter cache, RPC
  forwarding, filter matching, base64) is written as classes and methods with loops; each method's `ensures`
  ties it to a specification function, and the theorems are about that function. The forwarder and the direct
  manager have both: the state machine, and a class whose `Run` is proved equal to `Exec`.
* The broadcast ring is an unbounded log of which the last `capacity` entries are retained. Clocks, probe
  outcomes, upstream answers, base58 decoding and the limiters' own verdicts are parameters. Hash-map
  iteration order is an arbitrary list order.
* Counters are unbounded except where width matters: the `u32` health counters and `u32` burst sums wrap,
  `fetch_sub` wraps, the heavy-RPC counter wraps.

| file | component |
|---|---|
| `Geyser.dfy`, `Filters.dfy` | stream messages, dedup keys, client filters, routing |
| `DedupCache.dfy`, `DedupPipeline.dfy`, `DedupWorker.dfy` | dedup cache, split-step pipeline, worker loop |
| `Forwarder.dfy`, `EndToEnd.dfy` | per-client forwarder; pipeline and forwarder composed |
| `SlotTracker.dfy`, `Replay.dfy`, `SingleUpstream.dfy`, `DirectManager.dfy` | gap detection, reconnect and replay |
| `Supervisor.dfy`, `ChannelPool.dfy` | stream supervisors and the per-IP limit; managed channels |
| `Health.dfy`, `Router.dfy`, `RateLimiter.dfy`, `Base64.dfy` | health hysteresis, failover, limiter cache, decoder |

## Where the code falls short of the obvious reading

Each is kept as the code has it, shown by a lemma, and the exact condition is proved.

* Two broadcasts of one key can be closer than the dedup window: the window runs from acceptance, and a worker
  that stalls before it broadcasts shortens the distance by its stall (`DedupSafety`, attained: `StalledWorkerGap`).
* A transaction filter whose signature, whole include list or a required account fails to decode is compiled to
  a wider filter, not an empty one (`CompiledFilterMeaning`, `UndecodableIncludeMatchesAll`).
* A client whose slots filter sets `interslot_updates` is routed to the multiplexer, whose own subscription leaves
  that option off: it never gets the statuses it asked for. Routing loses nothing exactly for requests without it
  (`MuxCoverage`, `InterslotRoutedToMux`).
* A mux-routed client's `from_slot` is ignored: its stream starts at the subscription point. It gets all it asked
  for exactly when nothing in the log before that point is of a slot it wanted replayed (`ReplayHonouredIff`).
* A task dropped while it connects leaves the `connecting` flag set, and the node is then never connected again
  (`OrphanedFlagIsForever`, `OrphanReachable`); `subscribe_direct` drops its connect future when the client leaves.
* After a rejected replay the direct manager re-sends the client's own last request, `from_slot` included, so it
  "resumes live" only if that request is live (`ResumesAsClientAsked`; a run for every request: `RejectedYetNotLive`).
* The comment above the mux's replay decision speaks of the slot after the last one; the code asks for the last
  slot itself. Asking for the next slot would lose exactly the undelivered updates of the last slot that the
  upstream has already sent (`ExclusiveReplayLoses`).
* Replay loses late updates: those that come after a slot update of a higher slot has moved the last seen slot.
  Confirmed and finalized statuses of older slots are of this kind in an ordinary stream.
* Until a slot update has been received there is nothing to replay from: a reconnect is opened with the
  subscription's own `from_slot`, or live, and drops what came in between. A direct client without a slots filter
  is never replayed at all and can lose anything between two deliveries (`NoSlotNoReplay`, `UnslottedLosesAnything`).
* Together: without a rejection, and from the first delivery on, an update can be lost if and only if another
  follows it and it is late or exposed, that is, not asked for by the subscription's own `from_slot` and preceded
  by an update that shows no slot and with which a stream can begin (`LostIff`, for both controllers).
* The heavy-RPC rotation is fair while its `u64` counter does not wrap; across a wrap it stays fair exactly for
  numbers of nodes that divide 2^64 (`FairAcrossWrapIff`).
* After a rejected replay, one failed connect makes the single-upstream loop ask for the replay again
  (`RejectionForgottenOnConnectFailure`), while in the direct manager no number of failed connects does
  (`RejectionOutlivesConnectFailures`).
* For every ring, a lag limit other than 1, or none at all, lets a client stream on across a hole it is never told about
  (`HigherLimitHasHoles`); with 1 it never does (`NoSilentHoles`).
* The gap detector is exact only while forgotten slots lie below the window's front (`ExactIffFaithful`,
  `EarlyArrivalReportedMissing`). That is a condition on the tracker's state; what can be checked on the arrivals
  themselves is that each processed slot is in the window or above all earlier ones, which suffices (`GapsAreReal`).
* The stream limit of 500 per IP is a check before a later increment: the true bound is 499 plus the number of
  subscribes in between (`StreamBound`, attained: `StreamBoundAttained`).
* A whitelist that lists an IP twice makes cache and configuration disagree exactly when the first and last
  entry differ in effect (`LimiterCacheAgrees`, `DuplicateEntriesDisagree`).

## Model

| member | source | states |
|---|---|---|
| Geyser.KeysIdentifyItems | src/proxy/grpc_mux.rs:357-435 | two updates share a key exactly when they are the same kind of item with the same slot and consensus-wide identity, whatever their node-local bank ids |
| DedupCache.FrontScanIsFullScan | src/proxy/grpc_mux.rs:408-416 | in a time-sorted queue, stopping at the first unexpired entry leaves what a full scan leaves |
| DedupCache.LiveTable | src/proxy/grpc_mux.rs:402-417 | a full scan keeps exactly the entries of the timestamped map that are younger than the ttl |
| DedupCache.DedupCache.constructor | src/proxy/grpc_mux.rs:378-384 | a new cache stands for the empty timestamped map |
| DedupCache.DedupCache.CheckAndInsert | src/proxy/grpc_mux.rs:387-399 | true exactly for keys the timestamped map lacks, and then adds the key with the current instant |
| DedupCache.DedupCache.EvictExpired | src/proxy/grpc_mux.rs:402-417 | removes exactly the map entries whose age has reached the ttl and keeps set and queue in step |
| DedupPipeline.RunInv | src/proxy/grpc_mux.rs:371-529 | every reachable state of the split-step pipeline satisfies all invariants |
| DedupPipeline.CacheRefinement | src/proxy/grpc_mux.rs:387-417 | at every atomic step the key set is the queue's keys plus at most the key being inserted and the key being evicted, the queue is distinct and time-sorted, and every completed pass removed exactly what a full scan removes |
| DedupPipeline.DedupSafety | src/proxy/grpc_mux.rs:476-509 | over whole runs, acceptances of one key are at least ttl apart, and broadcasts are at least ttl apart less the first one's stall |
| DedupPipeline.StalledWorkerGap | src/proxy/grpc_mux.rs:489-509 | for every stall up to the ttl some run attains that bound |
| DedupPipeline.SuppressionJustified | src/proxy/grpc_mux.rs:489-499 | every suppressed message repeats a key already broadcast, accepted less than ttl before the latest completed pass or not before it |
| DedupPipeline.EveryMessageCounted | src/proxy/grpc_mux.rs:476-503 | between messages, received = pongs + wins + dupes when all node ids are known; wins are the messages broadcast or about to be, dupes the suppressed ones |
| DedupPipeline.KnownNodesCounted | src/proxy/grpc_mux.rs:476-503 | whatever the nodes, wins and dupes together are exactly the messages other than pongs from the nodes the worker knows |
| DedupPipeline.NothingUnaccounted | src/proxy/grpc_mux.rs:476-509 | in every run, evictions included, each received message other than a pong was broadcast or is in flight, or another message of its key was or is |
| DedupWorker.FirstsExact | src/proxy/grpc_mux.rs:484-509 | the first occurrences hold every key exactly once and every keyless non-pong update, in order |
| DedupWorker.BroadcastsAreFirsts | src/proxy/grpc_mux.rs:476-509 | in every schedule in which no pass evicts an entry the broadcasts are the first occurrences in raw order |
| DedupWorker.InterleavingIndependence | src/proxy/grpc_mux.rs:476-509 | while no pass evicts an entry, any two merges of the same regional streams broadcast the same keys, once each, and the same keyless updates |
| DedupWorker.RunDedupWorker | src/proxy/grpc_mux.rs:460-529 | over any cache and with eviction passes in between, the worker loop sends exactly the messages that find no live entry of their key; a known region's wins are its share of the broadcasts, and wins, dupes and pongs make up everything it delivered |
| DedupWorker.AcceptedAreFirsts | src/proxy/grpc_mux.rs:484-509 | from an empty cache and without passes these are the first occurrences |
| Forwarder.DeliveryExact | src/proxy/grpc_mux.rs:251-332 | for every ring, schedule and filter set the client holds exactly the filtered log from its subscription point less the recorded losses, and at each loop head cursor advance = forwarded + not matched + lost |
| Forwarder.LagLimit | src/proxy/grpc_mux.rs:289-312 | at most max_lag_events losses; when the limit is reached nothing is shown after the last loss, and DATA_LOSS is the last item |
| Forwarder.NoSilentHoles | src/proxy/grpc_mux.rs:289-312 | with the default limit of one the client sees one contiguous filtered segment |
| Forwarder.HigherLimitHasHoles | src/config.rs:136-141 | for every ring, with every limit other than one, and with none, a client can stream on across a hole it is never told about |
| Forwarder.PongsInOrder | src/proxy/grpc_mux.rs:319-330 | pings taken up are answered in order, at most the one in hand is lost |
| Forwarder.ClosedIsFinal | src/proxy/grpc_mux.rs:253-343 | once closed, a stream gets no further item |
| Forwarder.LagExact | src/proxy/grpc_mux.rs:256-312 | a receive skips exactly what the ring has overwritten, records it as one loss, and starts the cut exactly when the limit is reached |
| Forwarder.CatchesUp | src/proxy/grpc_mux.rs:251-312 | from every state of an open stream, receives and room lead to the end of the log, or to a cut whose last item is DATA_LOSS |
| Forwarder.PingIsAnswered | src/proxy/grpc_mux.rs:319-330 | a ping is taken up exactly when the client has caught up, and then answered with the next room |
| Forwarder.StopsAtOnce | src/proxy/grpc_mux.rs:253-343 | cancel and a dropped response end the stream at once, except that a pending DATA_LOSS outlasts a cancel; the end of the broadcast ends it when the client has caught up |
| Forwarder.ClientForwarder.constructor | src/proxy/grpc_mux.rs:231-249 | a subscription starts at the end of the log with zero counters |
| Forwarder.ClientForwarder.Lag | src/proxy/grpc_mux.rs:289-312 | a lag moves the cursor to the oldest retained entry, records the loss and cuts at the limit |
| Forwarder.ClientForwarder.Receive | src/proxy/grpc_mux.rs:256-318 | one receive does what the specification's receive step does |
| Forwarder.ClientForwarder.Deliver | src/proxy/grpc_mux.rs:266-281 | room in the client channel lets out exactly the item in hand |
| Forwarder.ClientForwarder.Run | src/proxy/grpc_mux.rs:243-343 | the task under any schedule is the specification run |
| EndToEnd.RepeatsAreTtlApart | src/proxy/grpc_mux.rs:256-288 | for every lag limit, if a client is shown one key twice, the two broadcasts were accepted at least ttl apart, under every schedule of regions, evictor and client |
| EndToEnd.ItemsExact | src/proxy/grpc_mux.rs:256-288 | in every run the client has been sent, in log order, one copy of each log entry its filters match and that is no pong, from its subscription point to where it has been served, outside the recorded losses, and under the names of the filters that match |
| EndToEnd.SentExactlyToClient | src/proxy/grpc_mux.rs:256-288 | in terms of the request: a mux-routed client whose strings decode is sent exactly what it asks for, upstream pings, and interslot statuses and certificates of kinds it subscribes to; each update names the filters of its own request |
| EndToEnd.AskedForIsShown | src/proxy/grpc_mux.rs:221-346 | in every run and for every lag limit, a mux-routed client is shown every log entry it asks for from its subscription point to where it has been served, outside the recorded losses |
| EndToEnd.DuplicateFree | src/proxy/grpc_mux.rs:256-288 | while no pass evicts an entry, no client is shown a key twice |
| EndToEnd.ReplayHonouredIff | src/proxy/grpc_yellowstone.rs:474-513 | in every run a mux-routed client is shown all it asks for, its from_slot included, if and only if no log entry before its subscription point that it asks for has slot >= from_slot |
| EndToEnd.SingleModeComplete | src/proxy/grpc_mux.rs:722-898 | from a node's production through the single-upstream loop to a mux-routed client: what the client asks for is an interslot status, or, between the first delivery and any later one, late, in a gap that follows a rejected replay, preceded by an update that shows no processed slot, or in the log and shown wherever the client read it outside its losses; from the first observed processed slot on without the third exception |
| EndToEnd.MultiModeComplete | src/proxy/grpc_mux.rs:460-529 | in multi-region mode, in every run, each received message that is no pong has a log entry of its own or of its key, and every such entry the client asks for (by the message itself, transactions and footers aside) is shown to it outside the recorded losses |
| Filters.NamesOf | src/proxy/grpc_filter.rs:77-79 | the filters' names, in table order |
| Filters.CollectTxAccountKeys | src/proxy/grpc_filter.rs:185-206 | the message keys followed by the loaded writable and readonly addresses |
| Filters.AccountKeysExact | src/proxy/grpc_filter.rs:185-206 | a key is collected exactly if it is a message key or a loaded writable or readonly address |
| Filters.MatchTransaction | src/proxy/grpc_filter.rs:161-181 | the names of the matching filters in table order, or None when there are none |
| Filters.CompiledFilterMeaning | src/proxy/grpc_filter.rs:45-62 | a transaction is wanted by a filter exactly when the compiled filter matches it and nothing the filter insists on was lost in decoding |
| Filters.UndecodableIncludeMatchesAll | src/proxy/grpc_filter.rs:40-42 | one undecodable include string makes the compiled filter match every transaction |
| Filters.TransactionNamesExact | src/proxy/grpc_filter.rs:122-181 | with decodable strings a transaction carries exactly the names of the filters that ask for it |
| Filters.MuxCoverage | src/proxy/grpc_mux.rs:900-961 | for a mux-routed request, everything it asks for is asked for by the mux's own subscription if and only if no slots filter of it turns interslot updates on |
| Filters.MuxAsksToo | src/proxy/grpc_mux.rs:917-924 | payload by payload: of what a mux-routed request asks for, the mux asks for exactly what is no interslot status |
| Filters.InterslotRoutedToMux | src/proxy/grpc_filter.rs:82-109 | a request with only such a slots filter is routed to the mux |
| Filters.AskedIsLetThrough | src/proxy/grpc_filter.rs:122-181 | what a mux-routed request asks for, its compiled filters let through |
| Filters.LetThroughExactly | src/proxy/grpc_filter.rs:122-181 | with decodable strings, what passes a mux-routed request's filters, pings and pongs aside, is exactly what it asks for plus interslot statuses and certificates of kinds it subscribes to, and carries the names of its own table of that kind |
| Filters.RoutingExact | src/proxy/grpc_filter.rs:82-120 | which requests the mux serves, table by table and option by option |
| Filters.MatchedIsReceived | src/proxy/grpc_mux.rs:900-961 | of the updates other than pings and pongs that compiled filters match, the mux's own request asks for exactly those that are neither an interslot status nor a footer with certificates |
| SlotTracker.SlotTracker.constructor | src/proxy/grpc_mux.rs:35-41 | a new tracker is empty |
| SlotTracker.SlotTracker.Observe | src/proxy/grpc_mux.rs:45-80 | the new window, last slot, gap count and report are those of the specification step |
| SlotTracker.RunInv | src/proxy/grpc_mux.rs:45-80 | in all histories the window is duplicate-free with at most 2048 slots, last_slot is the maximum processed slot and gaps counts the reports |
| SlotTracker.ExactIffFaithful | src/proxy/grpc_mux.rs:54-62 | reports are exact for every next parent if and only if every forgotten slot lies below the window's front |
| SlotTracker.GapsAreReal | src/proxy/grpc_mux.rs:43-62 | with orderly arrivals a parent is reported exactly when it is at or above the front and was never observed in the whole history |
| SlotTracker.WindowExact | src/proxy/grpc_mux.rs:63-68 | of slots that come in ascending order the window holds the last 2048 |
| SlotTracker.EarlyArrivalReportedMissing | src/proxy/grpc_mux.rs:63-68 | a slot that arrived far too early is forgotten first and then reported missing although it was received |
| Replay.ReplayIsContiguous | src/proxy/grpc_mux.rs:792-793 | in slot order a stream opened with from_slot is one contiguous segment starting at or before every requested update |
| Replay.ReplayRejoins | src/proxy/grpc_mux.rs:792-793 | in any slot order, replaying from the last seen slot inclusively passes over late updates only |
| Replay.ExclusiveReplayLoses | src/proxy/grpc_mux.rs:775-793 | replaying from the slot after it opens a gap exactly when the upstream has already sent an undelivered update of the last slot that is not late |
| Replay.RejectionMeans | src/proxy/grpc_mux.rs:568-573 | a status rejects a replay exactly by one of three codes or a message that contains from_slot in whatever case |
| SingleUpstream.UpstreamLoop.constructor | src/proxy/grpc_mux.rs:728-730 | a new loop has nothing to replay and nothing broadcast |
| SingleUpstream.UpstreamLoop.StreamFrom | src/proxy/grpc_mux.rs:859-893 | counts every message, tracks slots and broadcasts everything but pongs, in order |
| SingleUpstream.UpstreamLoop.ConnectAndStream | src/proxy/grpc_mux.rs:806-898 | one attempt's outcome (established, messages, rejected) and the new log and slots are those of the specification attempt |
| SingleUpstream.UpstreamLoop.Run | src/proxy/grpc_mux.rs:732-803 | the reconnect loop over any sequence of attempts is the specification run |
| SingleUpstream.ReplayLosesNothing | src/proxy/grpc_mux.rs:728-804 | with replay on, for every upstream in whatever slot order and any sequence of stream deaths and failed connects: every update from the first observed processed slot to any later delivery is in the broadcast log, unless it is late or in a gap; a gap is opened only right after an attempt classed as rejected; and from the first delivery on, what is passed over is late, in a gap or exposed |
| SingleUpstream.LostIff | src/proxy/grpc_mux.rs:780-794 | from the first delivery on, an update can be lost in a run without a rejected replay if and only if another update follows it, and it is late or some earlier update shows no processed slot |
| SingleUpstream.NoRejectionNoHole | src/proxy/grpc_mux.rs:780-794 | if the upstream sends in slot order, a run without a rejected replay has no hole from the first observed processed slot on |
| SingleUpstream.OrderedLossIff | src/proxy/grpc_mux.rs:780-794 | in slot order, an update can be lost without a rejected replay if and only if another follows it and some earlier one shows no processed slot |
| SingleUpstream.ReplaySlotExact | src/proxy/grpc_mux.rs:780-794 | in every run the next from_slot is the last processed slot, unless none was seen or the attempt just made was rejected |
| SingleUpstream.TrackerFollowsDeliveries | src/proxy/grpc_mux.rs:438-456 | in every run the loop's tracker is the gap detector run over exactly the delivered slot updates, with their parents and statuses, in delivery order |
| SingleUpstream.LoopGapsAreReal | src/proxy/grpc_mux.rs:859-885 | with orderly deliveries the loop reports a parent exactly when it is in range and was never delivered as processed |
| SingleUpstream.PingsNotPongs | src/proxy/grpc_mux.rs:866-885 | in every run the log holds each delivered update and each upstream ping once per arrival, and no pong |
| SingleUpstream.NoOptionNoReplay | src/proxy/grpc_mux.rs:782-783 | with the replay option off no attempt ever asks for a replay |
| SingleUpstream.VerdictExact | src/proxy/grpc_mux.rs:780-781 | an attempt is classed as rejected exactly when it asked for a replay and the upstream said so or the established stream carried no message |
| SingleUpstream.RejectionForgottenOnConnectFailure | src/proxy/grpc_mux.rs:778-794 | in every run, a live attempt after a rejection that fails to connect brings the replay slot back |
| DirectManager.Continuity | src/proxy/grpc_yellowstone.rs:203-391 | in every run the filters in force upstream are those of the last non-ping message that came while a stream and the request side were open, a replay slot was really seen, and the client gets the upstream's updates in order and no error |
| DirectManager.ConsumesWhatItHears | src/proxy/grpc_yellowstone.rs:303-327 | in every run exactly those messages have been consumed, and the request side is open until a half-close comes on an open stream |
| DirectManager.AcceptedAtOnce | src/proxy/grpc_yellowstone.rs:311-321 | a filter change the upstream side accepts is the request in force at once, on the open stream |
| DirectManager.FilterChangeTakesEffect | src/proxy/grpc_yellowstone.rs:235-321 | accepted or not, in every continuation in which only pings follow, whatever is asked of the upstream has its filters |
| DirectManager.EndsOnlyWithClient | src/proxy/grpc_yellowstone.rs:136-140 | the run ends only by cancel or because the client is gone |
| DirectManager.StopsAtOnce | src/proxy/grpc_yellowstone.rs:253-364 | at every await a cancel or the client's departure ends the run at once |
| DirectManager.NeverWedged | src/proxy/grpc_yellowstone.rs:215-391 | from every state that is not done at most four events lead to an open stream, and an update in hand reaches the client |
| DirectManager.EndDecides | src/proxy/grpc_yellowstone.rs:366-379 | however an established stream ends, the next replay slot is the last seen one, and none without the option, after a rejection or before any slot |
| DirectManager.RejectedReplayStaysDropped | src/proxy/grpc_yellowstone.rs:277-282 | a rejected replay is dropped and stays dropped until some established stream ends |
| DirectManager.RejectionOutlivesConnectFailures | src/proxy/grpc_yellowstone.rs:265-291 | in every run, after a rejection no number of failed connects brings a replay back, and each retry sends the client's own request |
| DirectManager.ResumesAsClientAsked | src/proxy/grpc_yellowstone.rs:235-238 | after a rejection, and until an established stream ends, every request in force upstream is the client's own last non-ping request, from_slot included |
| DirectManager.RejectedYetNotLive | src/proxy/grpc_yellowstone.rs:235-282 | for every first request some run follows a rejected replay by sending exactly that request again |
| DirectManager.DirectReplayLosesNothing | src/proxy/grpc_yellowstone.rs:328-379 | with replay on, while the client keeps its filters, and in whatever slot order its subscription comes: every update from the first observed slot to any later one received is received, unless it is late or in a gap; each gap is paid for by a rejection of its own; and from the first delivery (or the client's from_slot) on, what is passed over is late, in a gap or exposed |
| DirectManager.LostIff | src/proxy/grpc_yellowstone.rs:328-379 | for every first request, from the first delivery (or its from_slot) on, an update can be lost without a rejection if and only if another follows it, and it is late, or below from_slot with an earlier update that shows no slot and before which from_slot asks for nothing |
| DirectManager.NoSlotNoReplay | src/proxy/grpc_yellowstone.rs:330-379 | in every run the last seen slot is positive exactly when a slot update was received, and only then is there a replay slot |
| DirectManager.UnslottedLosesAnything | src/proxy/grpc_yellowstone.rs:374-379 | a live subscription without slot updates can lose any update between two others, with nothing late and no rejection |
| DirectManager.UpstreamManager.constructor | src/proxy/grpc_yellowstone.rs:204-213 | a new manager has the first message as its request and nothing to replay |
| DirectManager.UpstreamManager.Pick | src/proxy/grpc_yellowstone.rs:217-239 | the request sent is the latest one with the replay slot put in |
| DirectManager.UpstreamManager.Connect | src/proxy/grpc_yellowstone.rs:265-296 | an established stream starts with zero messages |
| DirectManager.UpstreamManager.ConnectFailed | src/proxy/grpc_yellowstone.rs:271-291 | a failed subscribe drops the replay slot only on a rejection |
| DirectManager.UpstreamManager.StreamEnded | src/proxy/grpc_yellowstone.rs:366-379 | after a stream ended the next replay slot is the last seen slot, and none without the option, after a rejection or before any slot |
| DirectManager.UpstreamManager.ClientMessage | src/proxy/grpc_yellowstone.rs:311-321 | a non-ping message replaces the request and goes upstream |
| DirectManager.UpstreamManager.Take | src/proxy/grpc_yellowstone.rs:329-333 | a received update is counted and moves the last slot |
| DirectManager.UpstreamManager.UpstreamMessage | src/proxy/grpc_yellowstone.rs:328-346 | the next update of the subscription is taken in |
| DirectManager.UpstreamManager.Turn | src/proxy/grpc_yellowstone.rs:215-391 | one event does what the specification step does |
| DirectManager.UpstreamManager.Run | src/proxy/grpc_yellowstone.rs:215-391 | the manager under any schedule is the specification run |
| Supervisor.Conservation | src/proxy/subscribe_supervisor.rs:55-108 | under every interleaving of the atomic steps of gRPC and aRPC supervisors each per-IP counter counts its supervisors, the sum differs from the global counter by those mid-increment less those mid-decrement, and every start is accounted for |
| Supervisor.ConservationAtRest | src/stats.rs:84-87 | at rest the sum of all per-IP counters, gRPC and aRPC, equals the global one, and started = active + drops |
| Supervisor.DecrementsAreSafe | src/proxy/subscribe_supervisor.rs:101-103 | no counter underflows, and a decrement happens only with an empty join set after a drop or cancel |
| Supervisor.ChildrenAccountedFor | src/proxy/subscribe_supervisor.rs:79-99 | every child of a finished supervisor ended by itself or was counted as aborted |
| Supervisor.NeverGoesBack | src/proxy/subscribe_supervisor.rs:65-105 | a supervisor never returns to an earlier stage, so it passes each counter update at most once |
| Supervisor.ChildrenDoNotEndIt | src/proxy/subscribe_supervisor.rs:66-74 | without a drop or cancel a supervisor keeps waiting, whatever its children do |
| Supervisor.Begins | src/proxy/subscribe_supervisor.rs:55-57 | a gRPC subscribe is admitted exactly below 500, an aRPC one always; once started it counts one on its per-IP counter and one on the global one |
| Supervisor.Finishes | src/proxy/subscribe_supervisor.rs:65-104 | from every reachable state a waiting supervisor that was dropped or cancelled finishes by its own steps: both counters one lower, drops one higher, aborted higher by the children still there when the grace period ended, no other supervisor touched |
| Supervisor.StreamBound | src/proxy/grpc_yellowstone.rs:445-474 | with at most m gRPC subscribes of an IP between check and start, active + pending never exceeds 499 + m |
| Supervisor.StreamBoundAttained | src/proxy/grpc_yellowstone.rs:445-474 | for every m some such run reaches 499 + m active streams |
| ChannelPool.SingleFlight | src/cluster/grpc_pool.rs:42-112 | in every interleaving at most one connect is in flight, it holds the flag, and every channel returned came from a successful connect |
| ChannelPool.GetLoads | src/cluster/grpc_pool.rs:42-48 | a get with a filled slot returns that channel; with an empty one it goes on to reconnect |
| ChannelPool.InvalidateEmpties | src/cluster/grpc_pool.rs:108-111 | after an invalidate a get finds the slot empty |
| ChannelPool.ReconnectReturns | src/cluster/grpc_pool.rs:83-106 | with the flag free a reconnect returns what its connect brought, stores a channel, clears the flag and wakes every listener |
| ChannelPool.LoserListens | src/cluster/grpc_pool.rs:52-81 | with the flag taken a reconnect listens, and returns the slot once notified or an error when the wait is over |
| ChannelPool.FlagWithoutConnect | src/cluster/grpc_pool.rs:51-95 | the flag is set with no connect behind it exactly after a connecting task was dropped |
| ChannelPool.OrphanedFlagIsForever | src/cluster/grpc_pool.rs:51-83 | once that happened with an empty slot, no connect starts and no later call returns a channel, in any continuation |
| ChannelPool.OrphanReachable | src/cluster/grpc_pool.rs:42-83 | four steps lead there |
| Health.NodeHealth.constructor | src/cluster/health.rs:58-76 | a new node is healthy with zero counters |
| Health.NodeHealth.RecordSuccess | src/cluster/health.rs:95-107 | a success clears the failure run and extends the success run, modulo 2^32 |
| Health.NodeHealth.RecordFailure | src/cluster/health.rs:109-113 | a failure clears the success run and extends the failure run, modulo 2^32 |
| Health.NodeHealth.Check | src/cluster/health.rs:153-200 | one probe moves the status as the specification's transition does, from which the history theorem follows |
| Health.ProbeAll | src/cluster/health.rs:139-241 | every node is probed once and the highest slot of the round is found |
| Health.DriftAll | src/cluster/health.rs:243-258 | only healthy nodes more than five slots behind are degraded |
| Health.Round | src/cluster/health.rs:136-259 | a round is the probes followed by the drift pass |
| Health.MaxSlotIsMaximum | src/cluster/health.rs:139-165 | the slot a round compares with is the highest one a successful probe of it brought |
| Health.DriftExact | src/cluster/health.rs:243-258 | the drift pass degrades exactly the healthy nodes with a known slot more than five behind |
| Health.FiguresExact | src/cluster/health.rs:95-113 | last slot and latency are those of the last success, and the blocked flag is about the last probe |
| Health.TotalsExact | src/cluster/health.rs:95-113 | the totals count the probes and the successes of the history, modulo 2^64 |
| Health.DegradedExact | src/cluster/health.rs:153-180 | after a success a routable node is degraded exactly if the answer took more than 500 ms, or it was degraded and the run of successes is still below the threshold |
| Health.EligibleIffHistory | src/cluster/health.rs:78-80 | a node is routable unless its history holds a block of max(1, unhealthy_threshold) failures with no later block of max(1, healthy_threshold) successes, wrap-around included |
| Health.RunRounds | src/cluster/health.rs:136-259 | after any sequence of rounds over fresh nodes, each node is routable exactly by its own history of probes |
| Health.EligibilityIgnoresDetails | src/cluster/health.rs:153-258 | histories with the same successes give the same eligibility, whatever latency, slots, drift and kind of failure |
| RateLimiter.BurstCoversRate | src/middleware/rate_limiter.rs:205-210 | the burst covers one second at the rate exactly when the sum does not overflow (or the rate is 1) |
| RateLimiter.QuotasExact | src/config.rs:351-381 | field by field, an IP gets its first entry's figures, and the defaults where that has none or there is no entry |
| RateLimiter.LimitersExact | src/middleware/rate_limiter.rs:110-135 | the request limiter is built from the request figures and the transaction limiter from the transaction figures |
| RateLimiter.Middleware.constructor | src/middleware/rate_limiter.rs:29-70 | a new cache holds the whitelist's limiters |
| RateLimiter.Middleware.Fill | src/middleware/rate_limiter.rs:169-182 | one limiter per whitelisted IP, the last entry deciding |
| RateLimiter.Middleware.Reload | src/middleware/rate_limiter.rs:164-202 | a reload forgets the old cache entirely |
| RateLimiter.Middleware.GetOrCreateLimiters | src/middleware/rate_limiter.rs:110-135 | a missing limiter is created from the first matching entry, a cached one is kept |
| RateLimiter.Middleware.Check | src/middleware/rate_limiter.rs:72-84 | unknown IPs are refused when the cache is full, and the verdicts combine as specified |
| RateLimiter.CacheAgreesIffConsistent | src/middleware/rate_limiter.rs:72-135 | after a load and any checks every cached limiter agrees with the configuration if and only if repeated entries agree in effect; the cache never exceeds max(50000, whitelist size) |
| RateLimiter.LimiterCacheAgrees | src/config.rs:351-381 | the same in every run of reloads and checks; whitelists with distinct IPs always agree |
| RateLimiter.FillsToCap | src/middleware/rate_limiter.rs:72-77 | with no whitelist, checks of n different addresses fill the cache to n entries, and to 50000 at most |
| RateLimiter.DuplicateEntriesDisagree | src/config.rs:351-357 | two entries with different rates for one IP break the agreement |
| Router.HealthyNodes | src/cluster/router.rs:123-127 | exactly the healthy nodes |
| Router.HealthyInOrder | src/cluster/router.rs:123-127 | in configuration order and each as often as listed: the nodes at exactly the healthy positions |
| Router.FailsOnlyAfterAll | src/cluster/router.rs:170-181 | success if and only if some node succeeds, failure only after all were tried, the result being the first success or the last error |
| Router.SortIsStable | src/cluster/router.rs:168-168 | the order of attempts is a sorted permutation with ties in configuration order |
| Router.FirstTriedIsPicked | src/cluster/router.rs:30-36 | the first node tried is the one pick_read_node returns |
| Router.ForwardReadRpc | src/cluster/router.rs:154-182 | attempts follow the stable priority sort of the healthy nodes up to the first success |
| Router.RoundRobin.ForwardHeavyRpc | src/cluster/router.rs:119-151 | attempts follow the cyclic order from the counter, which advances by one |
| Router.RoundRobin.ForwardHeavyCalls | src/cluster/router.rs:119-151 | the nodes that consecutive calls try first, whatever they answer, follow the wrapping counter, and every node gets its fair share when the counter does not wrap or n divides 2^64 |
| Router.TryFrom | src/cluster/router.rs:138-150 | the cyclic order is tried up to the first success |
| Router.CycleIsPermutation | src/cluster/router.rs:139-140 | the cyclic order holds every healthy node once |
| Router.FairShare | src/cluster/router.rs:133-136 | over any number of calls with a fixed healthy list of n and no skew at a wrap, a node listed m times is first choice between m * floor(k/n) and m * ceil(k/n) times |
| Router.FairAcrossWrapIff | src/cluster/router.rs:133-136 | if the counter may wrap, every position gets its floor or ceiling share in every run of calls if and only if n divides 2^64 |
| Router.FanOutSendTx | src/cluster/router.rs:66-114 | success if and only if some healthy eligible node succeeds, whatever the order of answers |
| Base64.ShiftTidy | src/dashboard/mod.rs:100-106 | between symbols there are 0, 2, 4 or 6 bits and nothing above them, so no shift overflows and the emitted value is a byte |
| Base64.DecodedLength | src/dashboard/mod.rs:97-108 | that holds after every prefix, and n symbols give floor(6n/8) bytes |
| Base64.ShiftIn | src/dashboard/mod.rs:100-106 | one turn of the bit loop is one step of the accumulator whose bounds and round trip are proved |
| Base64.Base64Decode | src/dashboard/mod.rs:92-109 | None exactly when a symbol before the padding is outside the alphabet, else the accumulated bytes |
| Base64.EncodingShape | src/dashboard/mod.rs:92-109 | the encoding meant in the round trip: (4n + 2) / 3 symbols unpadded, and = only to fill up to a multiple of four |
| Base64.RoundTrip | src/dashboard/mod.rs:92-109 | decoding the encoding of section 4 of RFC 4648, with or without padding, returns the bytes |

## Left out

- Transport, TLS, sockets, keepalive, the HTTP, WebSocket and aRPC forwarders: I/O with no state to reason about.
- Liveness and fairness (eventual reconnect, pong delivery under a biased select): they depend on the runtime and the upstreams.
- Back-off durations and jitter: a sleep is an arbitrary delay.
- Lock poisoning in the dedup cache and the slot tracker: a lock is always obtained.
- The retry loop around the compare-exchange on `last_slot`: the tracker's lock is held, so it is a plain maximum.
- The per-region upstream loop of multi-region mode: it never replays, so nothing is claimed beyond the pipeline it feeds.
- API-key limiters: their map has no size limit and a missing limiter is filled from the defaults, not from the key's own configuration; neither is modelled.
- The gRPC and iris health flags and `pick_grpc_node`: the same shapes as what is modelled, without a harder property.
- Several upstream nodes behind one reconnect loop: all attempts of a run see the same sequence of updates, each from its own live position; nodes that order updates differently are not modelled.
- Slot commitment levels: `filter_by_commitment` is not evaluated, so a slots filter counts as asking for every commitment level; the mux serves all of them.
- The request's own `commitment`: the mux always subscribes at the processed level and routing does not look, so a client that asks for the confirmed level is served processed updates when it is mux-routed.
- Reconnecting with the replay option off: every stream is then live, and nothing is claimed about losses.
- What an upstream could replay from before the multiplexer's own log: `ReplayHonouredIff` speaks of the broadcast log.
- Dashboard, firewall, configuration parsing, statistics persistence, logging and the command line.
- DirectReplayLosesNothing: covers clients that keep their filters; after a filter change the upstream sends a different sequence, to which positions of the old one do not apply.
- Forwarder.ClientForwarder.Run: the ring's capacity is taken as given; the channel implementation rounds it up to a power of two.
