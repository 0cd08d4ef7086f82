# Enxame: a verified model of the relay, the core server and the client SDK

Enxame is a messaging network. A relay keeps sessions with bounded send queues and forwards envelopes
between them; a core server keeps event streams, limits request rates, governs channels and tracks which
nodes are present; a client SDK agrees on session keys and sends files as hashed chunks. This project
models the six stateful components behind those features and proves what holds over all of their runs.

Every operation is a function on a state. Where the program updates objects in place, a class with the
same fields does so too, and its methods are proved to compute those functions. The theorems then speak
about every sequence of operations, and for the two concurrent components about every interleaving of
their atomic steps.

| file | component |
|---|---|
| `Relay.dfy` | the relay's session manager, one operation at a time |
| `RelayHistory.dfy` | what a run of these operations leaves behind, said from the operations alone |
| `RelayInterleaving.dfy` | the same operations as individual map operations, closes, sends and counter updates, run by any number of threads |
| `RelayServer.dfy` | the stream handler that drives the session manager |
| `RelayStreams.dfy` | what the streams deliver and subscribe over a whole trace, said from the events alone |
| `StreamManager.dfy` | the sharded stream manager against one flat map |
| `StreamLocks.dfy` | the stream manager's threads, with locks, closes and sends as separate steps |
| `StreamEvents.dfy` | which events a channel delivers, in which order, and which it loses |
| `RateLimiter.dfy` | the sliding-window rate limiter |
| `Decimal.dfy`, `GovernancePayload.dfy` | the signed governance text and the 64-bit replay window |
| `Governance.dfy` | channels, roles, signed requests and the audit log |
| `GovernanceGuards.dfy` | which requests succeed, guard by guard, and what runs make of members, avatars and the node directory |
| `Presence.dfy` | registration, heartbeats, expiring presence and lazily expiring bans |
| `PresenceHistory.dfy` | who is present after a run, said from the operations alone |
| `PresenceSteps.dfy` | the same as individual steps on the two stores, run by any number of threads |
| `RelaySelection.dfy` | choosing relays, for every shuffle |
| `Handshake.dfy` | the two-party key exchange over an unreliable network |
| `FileTransfer.dfy` | splitting a file and reassembling it |
| `Common.dfy` | small definitions shared by the others |

`dafny verify dfyconfig.toml` checks the whole project.

## Main results

- **Each queue is closed at most once** in every interleaving, by the one thread that took it out of the
  map (`ClosedAtMostOnce`); every queue is in exactly one of four places (`QueueFate`), which gives the exact
  condition under which a send panics (`SendPanicsExactlyWhenHandleIsStale`), and the exact step that leaves a
  blacklisted session behind (`BlacklistedSessionExactly`). Both counters obey exact laws even in the middle of
  calls (`CounterLaws`). Every enqueued envelope's sender passed its check (`EnqueuedAfterCheck`), and it can be
  blacklisted by then exactly if a ban fell in between and was not lifted (`BlacklistedEnqueueExactly`).
- **A stream keeps its session** exactly as long as no other stream of its node opens or ends and the node is not
  banned (`SessionKeptExactly`).
- **Relay conservation and safety** over runs of whole operations: the relayed counter is the number of
  envelopes ever enqueued, queues keep forwarding order, and no blacklisted node has a session
  (`RelayConservation`, `RelaySafety`, `BroadcastExact`). Who is subscribed, blacklisted and connected follows from
  the operations alone (`SubscribedExactly`, also in every interleaving, `BlacklistedExactly`, `ConnectedExactly`).
- **Streams deliver exactly** what came through an open stream of its own sender to the queues it must reach
  (`StreamsDeliverExactly`), and only their control commands change subscriptions (`CommandsSubscribeExactly`).
- **The sharded map is invisible** (`ShardedRefinesFlat`, for every shard order), and under every interleaving of
  its locks nothing is sent on a closed channel and nothing is closed twice (`ChannelDiscipline`, `RetiredForever`),
  and the shards still stand for one map that takes the stores and deletes one at a time (`InterleavingsRefineFlat`).
  Exactly which events a channel delivers and loses follows from one number per channel (`EventsExactly`).
- **The rate limiter** answers as if it kept the full history (`AllowMatchesFullHistory`) and, with a clock that does
  not go back, never accepts more than the limit in any window (`WindowBound`). It reads the clock before it takes
  its lock, so readings can lag: `BoundExactly` says, for every configuration and lag, which intervals keep the
  limit. They must be shorter than the window by the lag, and no less.
- **Governance**: role holders are the fold of the audit log (`GovernanceReplay`, and exactly when a lost row
  matters, `ReplayKeptExactly`); every role traces back to the creator (`RolesTraceToCreator`); a channel without
  an ADMIN never regains one (`NoAdminForever`); the bootstrap channel never changes (`InicioIsFrozen`). Requests
  succeed exactly by their guards, a registered key's signature first of all (`SucceedsExactly`, `AnswersExactly`),
  and runs determine members, avatars and registered keys (`MembersExactly`, `AvatarExactly`, `DirectoryExactly`).
- **Presence is exact**: a node is present exactly while its last accepted registration or heartbeat is not older than
  the time to live and nothing removed it (`PresentExactly`).
- **Bans**: lazy expiry is exact (`LazyBanIsExact`) and a ban bounds presence (`BanBoundsPresence`,
  `ModeratorBanRemovesAtOnce`, `BannedNeverSelected`). Step by step, a removal is final exactly if no store is
  pending (`RemovalFinalExactly`), and the bound counts from the last store in flight
  (`BanBoundsPresenceInterleaved`).
- **Signed texts**: exactly which governance texts stand for one request, among all requests
  (`UnambiguousExactly`) and within the only scope the server accepts (`UnambiguousInScopeExactly`).
- **Handshake agreement** in every run with delay, reordering and loss for one initiator (`HandshakeAgreement`), and
  for crossed and repeated inits too the exact condition under which keys agree (`AgreeExactly`) and under which
  completing a handshake makes them agree (`CompletionAgreesExactly`); the provenance of every key in all runs
  (`KeysHaveProvenance`).
- **Files** are never reassembled wrongly, whatever chunk responses overwrite the store (`RoundTrip`,
  `NeverWrongBytes`), and a file whose pieces all arrive is saved whole (`ArrivedIsSaved`).

Where the obvious claim is false of the code, the model follows the code. A lemma gives the failing run, and
another the exact condition:

| failing run | exact condition |
|---|---|
| `SendOnClosedIsReachable` | `SendPanicsExactlyWhenHandleIsStale` |
| `BlacklistedSessionIsReachable` | `BlacklistedSessionExactly` |
| `BlacklistedEnqueueIsReachable` | `BlacklistedEnqueueExactly` |
| `EndRemovesEverySessionOfTheNode` | `SessionKeptExactly` |
| `StaleClockBreaksBound` | `BoundExactly` |
| `BarsMakePayloadsCollide` | `UnambiguousExactly`, `UnambiguousInScopeExactly` |
| `LostRowBreaksReplay` | `ReplayKeptExactly` |
| `CrossedInitsDisagree`, `RepeatedInitDisagrees` | `AgreeExactly`, `CompletionAgreesExactly` |
| `NoExpiryNoBound` | `PresenceBoundExactly` |
| `RemovalIsNotFinal` | `RemovalFinalExactly` |

A replaced session is never discounted from
`activeConnections` (pkg/relay/session_manager.go:60-70), so its law carries a replacement count, and in
the interleaved model also a count of sessions overwritten by a concurrent registration. The 64-bit time
test accepts one far-away timestamp (`TimestampWindow`).

## Model

| member | source | states |
|---|---|---|
| Relay.SessionManager.constructor | pkg/relay/session_manager.go:39-41 | a new manager is the empty state of the runs below and satisfies the invariant |
| Relay.SessionManager.RegisterSession | pkg/relay/session_manager.go:44-75 | refuses blacklisted nodes; otherwise closes and counts a replaced session, stores a fresh empty queue and increments the connection counter; never closes a closed queue |
| Relay.SessionManager.UnregisterSession | pkg/relay/session_manager.go:78-89 | removes the session, closes its still open queue and decrements the counter; nothing for an unknown node |
| Relay.SessionManager.SubscribeToChannel | pkg/relay/session_manager.go:100-105 | adds the node to the channel, creating the channel when missing; changes nothing else |
| Relay.SessionManager.UnsubscribeFromChannel | pkg/relay/session_manager.go:108-114 | removes the node from an existing channel; changes nothing else |
| Relay.SessionManager.VisitSubscribers | pkg/relay/session_manager.go:149-172 | the Range loop, in any order, delivers one copy to exactly the recipients and counts them |
| Relay.SessionManager.BroadcastEnvelope | pkg/relay/session_manager.go:141-181 | equals the order-free broadcast and keeps the invariant |
| Relay.SessionManager.SendToSession | pkg/relay/session_manager.go:183-198 | enqueues and counts when there is room, otherwise reports a full buffer and changes nothing |
| Relay.SessionManager.ForwardEnvelope | pkg/relay/session_manager.go:117-138 | blacklisted sender, channel, unknown target, full buffer and delivery, with the new state and result of each |
| Relay.SessionManager.AddToBlacklist | pkg/relay/session_manager.go:201-210 | blacklists and disconnects; the invariant holds again afterwards |
| Relay.SessionManager.RemoveFromBlacklist | pkg/relay/session_manager.go:213-216 | removes the node from the blacklist only |
| Relay.SessionManager.GetConnectedNodeIDs | pkg/relay/session_manager.go:225-232 | every connected node exactly once |
| Relay.RunInv | pkg/relay/session_manager.go:44-222 | the state invariant holds after every sequence of operations |
| Relay.SentStep | pkg/relay/session_manager.go:117-198 | an operation extends a queue's history by the forwarded envelope exactly for the queues it must reach |
| Relay.RelayedStep | pkg/relay/session_manager.go:174-176 | the relayed counter grows by the number of queues reached |
| Relay.SentIsDelivered | pkg/relay/session_manager.go:117-198 | in every run a queue's history is the sequence of deliveries made to it |
| Relay.RunFifo | pkg/relay/server.go:138-156 | what the sender took followed by what waits is what was enqueued |
| Relay.RelayConservation | pkg/relay/session_manager.go:117-198 | messagesRelayed is the number of deliveries and of envelopes ever enqueued; each queue holds the undelivered rest of what was forwarded to it, in order, at most 100 long |
| Relay.ReplacedIsReplacements | pkg/relay/session_manager.go:60-64 | the replacement count is the number of registrations that displaced a live session |
| Relay.RelaySafety | pkg/relay/session_manager.go:44-89 | no blacklisted node has a session, live sessions have distinct open queues, no double close and no send on a closed queue, activeConnections is live sessions plus replacements |
| Relay.EnqueueOnlyFromAllowedSender | pkg/relay/session_manager.go:117-122 | an envelope is enqueued only by forwarding it and never while its sender is blacklisted |
| Relay.BroadcastExact | pkg/relay/session_manager.go:141-181 | exactly one copy to each live, non-full, non-sender subscriber; every other queue unchanged |
| Relay.BroadcastVisit | pkg/relay/session_manager.go:151-172 | one visit completes exactly the visited subscriber's delivery, whatever came before |
| RelayHistory.SubscribedExactly | pkg/relay/session_manager.go:100-114 | in every run a node is subscribed if and only if some operation subscribed it and no later one unsubscribed it |
| RelayHistory.BlacklistedExactly | pkg/relay/session_manager.go:201-222 | in every run a node is blacklisted if and only if some operation blacklisted it and no later one lifted that |
| RelayHistory.ConnectedExactly | pkg/relay/session_manager.go:44-89 | in every run a node has a session if and only if it was registered while not blacklisted and not unregistered or blacklisted since |
| RelayHistory.ClosedExactly | pkg/relay/session_manager.go:60-89 | in every run a queue is closed if and only if it is nobody's session |
| RelayHistory.ForwardAnswers | pkg/relay/session_manager.go:117-198 | the answer of forwarding in any reachable state, guard by guard, and that nothing changes unless it is forwarded |
| RelayHistory.ReceiveTakesOldest | pkg/relay/server.go:143-145 | a receiver gets the oldest delivery not received yet, and nothing else changes |
| RelayInterleaving.OwnExec | pkg/relay/session_manager.go:44-89 | in every interleaving each queue has one owner: a thread, a session, nobody (lost), or it is closed |
| RelayInterleaving.ClosedAtMostOnce | pkg/relay/session_manager.go:60-63 | no queue is closed twice; a close happens only by the thread that removed the queue, while it is open, unregistered and claimed by no other thread |
| RelayInterleaving.QueueFate | pkg/relay/session_manager.go:44-89 | every queue is exactly one of registered, claimed, closed or lost |
| RelayInterleaving.SendPanicsExactlyWhenHandleIsStale | pkg/relay/session_manager.go:131-185 | a send panics if and only if the queue looked up is neither registered, nor claimed, nor lost any more |
| RelayInterleaving.QueuesStayInOrder | pkg/relay/session_manager.go:131-185 | in every interleaving a queue holds at most 100 envelopes and keeps the order in which they were enqueued |
| RelayInterleaving.EnqueuedAfterCheck | pkg/relay/session_manager.go:117-185 | a history grows exactly when a thread sends and the queue accepts, by the envelope whose sender that thread found not blacklisted |
| RelayInterleaving.BlacklistedEnqueueExactly | pkg/relay/session_manager.go:117-216 | when a thread enqueues an envelope it checked in some step, the sender is blacklisted if and only if a later step banned it and none after that lifted the ban |
| RelayInterleaving.BlacklistedEnqueueFollowsBan | pkg/relay/session_manager.go:117-185 | an envelope enqueued while its sender is blacklisted was checked before a ban that fell between check and send |
| RelayInterleaving.BlacklistedEnqueueIsReachable | pkg/relay/session_manager.go:117-185 | a run in which that happens |
| RelayInterleaving.SubscribedExactly | pkg/relay/session_manager.go:100-114 | in every interleaving a node is subscribed if and only if some step entered it and no later step deleted it |
| RelayInterleaving.CounterLaws | pkg/relay/session_manager.go:66-84 | both counters, at every point of every interleaving, up to the updates that threads in flight still owe |
| RelayInterleaving.CountersWhenQuiet | pkg/relay/session_manager.go:235-239 | when all calls have returned the counters are exact |
| RelayInterleaving.HistoriesCount | pkg/relay/session_manager.go:60-66 | in every interleaving the lost count is the number of overwritten, never closed queues and the replacement count the number of registrations that found a session |
| RelayInterleaving.CalmBansHold | pkg/relay/session_manager.go:201-210 | if no ban takes effect inside a registration's window, a blacklisted node has no session unless its removal is pending |
| RelayInterleaving.BlacklistedSessionExactly | pkg/relay/session_manager.go:46-66 | the one step that creates an unremoved blacklisted session is a store while the node is blacklisted and no removal is pending |
| RelayInterleaving.SendOnClosedIsReachable | pkg/relay/session_manager.go:131-185 | a run in which the target disconnects between lookup and send |
| RelayInterleaving.BlacklistedSessionIsReachable | pkg/relay/session_manager.go:46-66 | a run that ends with a blacklisted session and no pending removal |
| RelayInterleaving.RegisterAlone | pkg/relay/session_manager.go:44-75 | the steps of a registration left alone compute the whole operation |
| RelayInterleaving.UnregisterAlone | pkg/relay/session_manager.go:78-89 | the same for unregistration |
| RelayInterleaving.BlacklistAlone | pkg/relay/session_manager.go:201-206 | the same for blacklisting |
| RelayInterleaving.SubscribeAlone | pkg/relay/session_manager.go:100-105 | the steps of a subscription left alone compute the whole operation |
| RelayInterleaving.UnsubscribeAlone | pkg/relay/session_manager.go:108-114 | the same for unsubscribing |
| RelayInterleaving.ForwardAlone | pkg/relay/session_manager.go:117-138 | the same for forwarding to one node |
| RelayInterleaving.BroadcastAlone | pkg/relay/session_manager.go:117-181 | the same for a whole broadcasting call, for every order in which Range yields the subscribers |
| RelayServer.HandleRelayCommand | pkg/relay/server.go:197-229 | subscribes to names that start with '#', unsubscribes from any, ignores the rest |
| RelayServer.ReceiveLoop | pkg/relay/server.go:159-194 | every received message is skipped, interpreted or forwarded as the specification of one turn says |
| RelayServer.StreamMessages | pkg/relay/server.go:103-194 | a stream fails exactly for an empty or blacklisted sender; after it ends its node has no session |
| RelayServer.TraceInv | pkg/relay/server.go:103-229 | in every run of any number of streams the manager's invariant holds and all channels start with '#' |
| RelayServer.OnlyTheSenderSends | pkg/relay/server.go:175-190 | an envelope enters a queue only through an open stream of its own sender, not blacklisted then |
| RelayServer.EndRemovesEverySessionOfTheNode | pkg/relay/server.go:125-125 | the end of an old stream removes the newer session of the same node and closes its queue |
| RelayServer.SessionKeptExactly | pkg/relay/server.go:119-125 | an open stream's queue is still its node's session if and only if, since it opened, no other stream of the node opened or ended and the node was not banned |
| RelayStreams.OpenExactly | pkg/relay/server.go:103-125 | a stream is open for a node if and only if an event opened it for that node and it has not ended since |
| RelayStreams.StreamsDeliverExactly | pkg/relay/server.go:128-194 | in every trace a queue's history is exactly the sequence of envelopes that came through an open stream of their own sender, not meant for the relay, when the queue was among their targets |
| RelayStreams.CommandsSubscribeExactly | pkg/relay/server.go:197-229 | in every trace a node is subscribed if and only if a subscribe command for a # name came through its own stream and no later unsubscribe command did |
| RelayStreams.StreamIsEvents | pkg/relay/server.go:103-194 | the stream method leaves what the opening, the arrivals and the end of one stream leave |
| StreamManager.StreamManager.constructor | internal/server/stream_manager.go:36-46 | 256 empty shards that stand for the empty map |
| StreamManager.StreamManager.RegisterStream | internal/server/stream_manager.go:57-66 | is the flat map's store of a fresh channel |
| StreamManager.StreamManager.UnregisterStream | internal/server/stream_manager.go:69-77 | is the flat map's delete, closing the channel, which is open |
| StreamManager.StreamManager.PublishShard | internal/server/stream_manager.go:91-99 | one shard's loop, in any order, sends to exactly the shard's channels |
| StreamManager.StreamManager.BroadcastEvent | internal/server/stream_manager.go:81-104 | for every order of shards, one send to every channel of the flat map |
| StreamManager.StreamManager.Count | internal/server/stream_manager.go:124-132 | the sum over shards is the size of the flat map |
| StreamManager.StreamManager.Has | internal/server/stream_manager.go:135-141 | membership in the flat map |
| StreamManager.FlatLookup | internal/server/stream_manager.go:49-53 | looking up a node in the flat map is looking it up in its hash shard |
| StreamManager.FlatSize | internal/server/stream_manager.go:124-132 | shard sizes add up to the flat map's size |
| StreamManager.FlatRegister | internal/server/stream_manager.go:57-66 | storing in the hash shard is storing in the flat map |
| StreamManager.FlatUnregister | internal/server/stream_manager.go:69-77 | deleting from the hash shard is deleting from the flat map |
| StreamManager.BroadcastAnyOrder | internal/server/stream_manager.go:81-104 | publishing shard by shard in any order is one flat broadcast |
| StreamManager.StepRefines | internal/server/stream_manager.go:57-104 | each operation on shards is the same operation on the flat map |
| StreamManager.ShardedRefinesFlat | internal/server/stream_manager.go:36-141 | after any sequence of operations, with any shard order per broadcast, map, channels, membership and count agree with a single map |
| StreamLocks.WriterExcludesAll | internal/server/stream_manager.go:57-77 | a thread in a shard's write section excludes every other thread from that shard |
| StreamLocks.ChannelDiscipline | internal/server/stream_manager.go:57-121 | in every interleaving no send on a closed channel and no double close; registered channels are distinct, in their node's shard, and open but for one being deleted by the shard's writer |
| StreamLocks.RetiredForever | internal/server/stream_manager.go:69-77 | a closed and deleted channel never returns |
| StreamLocks.FlatChangesAtOnce | internal/server/stream_manager.go:57-121 | in every interleaving the flat map changes only at a store and at a delete, as one flat store or delete |
| StreamLocks.InterleavingsRefineFlat | internal/server/stream_manager.go:57-141 | after every interleaving the shards agree with a single map that took the stores and deletes one at a time, on membership and size |
| StreamLocks.ShardBroadcastAlone | internal/server/stream_manager.go:91-99 | a broadcasting thread that can take the lock has sent, when done, to exactly the shard's streams, in any order |
| StreamLocks.RegisterAlone | internal/server/stream_manager.go:57-66 | a registration that finds the lock free stores a fresh channel and releases the lock |
| StreamLocks.UnregisterAlone | internal/server/stream_manager.go:69-77 | an unregistration that finds the lock free closes and deletes the node's channel and releases the lock |
| StreamEvents.OwnsExactly | internal/server/stream_manager.go:57-77 | a node is registered with a channel if and only if its last registration made it and was not undone since |
| StreamEvents.EventsExactly | internal/server/stream_manager.go:81-121 | what receivers got followed by what the channel holds is the sequence of events broadcast while it was registered and its balance below the capacity; receivers wait exactly below balance zero |
| RateLimiter.FilterRecent | internal/server/interceptors.go:125-130 | keeps exactly the times after the window's start, in order |
| RateLimiter.Limiter.constructor | internal/server/interceptors.go:104-115 | starts with no stored request |
| RateLimiter.Limiter.AllowRequest | internal/server/interceptors.go:118-139 | accepts exactly when fewer than the limit remain in the window, storing the filtered list and the new time; a refusal stores nothing |
| RateLimiter.Limiter.CleanupTick | internal/server/interceptors.go:142-166 | filters every key and drops the empty ones, in any order |
| RateLimiter.RunAgrees | internal/server/interceptors.go:118-166 | stored and full history agree on every window that starts after all earlier ones, whatever the clock does |
| RateLimiter.AllowMatchesFullHistory | internal/server/interceptors.go:118-166 | a request whose reading is not before any earlier one is answered as by the full history, so cleanup is invisible |
| RateLimiter.AllowExactly | internal/server/interceptors.go:118-139 | a request not before any earlier one is accepted if and only if fewer than the limit were accepted in its window |
| RateLimiter.CleanupExactly | internal/server/interceptors.go:142-166 | a cleanup leaves exactly the keys with an accepted request in the window, each with those requests only |
| RateLimiter.StoredWithinLimit | internal/server/interceptors.go:132-138 | no stored list exceeds max(limit, 0), whatever the clock does |
| RateLimiter.LagBound | internal/server/interceptors.go:118-166 | with readings that lag by at most a given amount, at most max(limit, 0) requests are accepted in intervals shorter than the window by that amount |
| RateLimiter.WindowBound | internal/server/interceptors.go:118-166 | with a nondecreasing clock at most max(limit, 0) requests of a key are accepted in any (x - window, x] |
| RateLimiter.BoundExactly | internal/server/interceptors.go:119-138 | for every configuration and lag: intervals shorter than the window by a given amount keep the limit in all runs if and only if the amount is at least the lag, the interval is empty or nothing is accepted |
| RateLimiter.StaleClockBreaksBound | internal/server/interceptors.go:119-122 | for every positive limit, window and lag, a run that exceeds the bound on whole windows |
| Decimal.IntRoundTrip | internal/server/channel_manual.go:268-268 | decimal text determines the integer, negative ones included |
| Decimal.DigitsInOrder | internal/server/channel_manual.go:268-268 | zero and a negative number in decimal: the sign and the most significant digit come first |
| GovernancePayload.PayloadDecodable | internal/server/channel_manual.go:266-268 | reading the text from both ends gives the five fields back if and only if target, role and scope have no bar |
| GovernancePayload.PayloadInjective | internal/server/channel_manual.go:266-268 | bar-free requests that sign the same text have the same fields |
| GovernancePayload.BarsMakePayloadsCollide | internal/server/channel_manual.go:266-268 | two different requests in the accepted scope that sign the same text, though target, role and scope of the first have no bar |
| GovernancePayload.UnambiguousExactly | internal/server/channel_manual.go:266-268 | a text stands for one request if and only if target, role, scope and channel have no bar |
| GovernancePayload.UnambiguousInScopeExactly | internal/server/channel_manual.go:125-127 | among requests in the accepted scope a text stands for one if and only if target and role have no bar and the channel does not repeat the scope between bars |
| GovernancePayload.ClientTextsMatchServer | pkg/client_sdk/client.go:995-1051 | the client's promote, demote and kick texts are what the server rebuilds |
| GovernancePayload.TimestampWindowExact | internal/server/channel_manual.go:276-283 | what the wrapping test accepts, for all 64-bit clocks and timestamps |
| GovernancePayload.TimestampWindow | internal/server/channel_manual.go:276-283 | for ordinary clocks it accepts exactly the 60 s window and the single point now - 2^63 |
| Governance.ChannelServer.constructor | internal/server/channel_manual.go:47-69 | starts with the bootstrap channel only |
| Governance.ChannelServer.CreateChannel | internal/server/channel_manual.go:71-102 | refuses empty or existing names; otherwise the creator is member and ADMIN; keeps the replay invariant |
| Governance.ChannelServer.VerifyGovernanceSignature | internal/server/channel_manual.go:259-286 | which check rejects a request, in order: lookup, missing node, signature over the payload, time window |
| Governance.ChannelServer.LogGovernanceAction | internal/repository/postgres/node_repository.go:353-360 | appends the audit row when the write succeeds; role and member maps are untouched |
| Governance.ChannelServer.PromoteUser | internal/server/channel_manual.go:118-151 | only an ADMIN of the channel gives a role; all error cases leave the state alone |
| Governance.ChannelServer.DemoteUser | internal/server/channel_manual.go:153-183 | only an ADMIN removes a role; members stay |
| Governance.ChannelServer.KickUser | internal/server/channel_manual.go:185-222 | ADMIN or MODERATOR removes member and role |
| Governance.ChannelServer.UpdateChannelAvatar | internal/server/channel_manual.go:224-257 | ADMIN or owner sets the avatar and nothing else |
| Governance.ReplayRun | internal/server/channel_manual.go:71-222 | roles are the replay of the channel's changes, each made by an authorized requester |
| Governance.LogRun | internal/repository/postgres/node_repository.go:353-360 | when log writes succeed, the audit rows of a channel are its changes |
| Governance.GovernanceReplay | internal/server/channel_manual.go:118-222 | role holders are the fold of the PROMOTE, DEMOTE and KICK rows from the creator |
| Governance.ReplayKeptExactly | internal/server/channel_manual.go:139-212 | an operation breaks that match if and only if it passes its guards, its row is lost and it changes who holds a role |
| Governance.LostRowBreaksReplay | internal/server/channel_manual.go:145-148 | for every key with a valid identity proof and one valid signed promotion, a run with a failed log write after which fold and roles differ |
| Governance.RolesTraceToCreator | internal/server/channel_manual.go:71-151 | every role holder is reached from the creator by promotions in order, each by a then-ADMIN |
| Governance.NoAdminForever | internal/server/channel_manual.go:139-212 | a channel without an ADMIN never regains one; roles and members only shrink |
| Governance.InicioIsFrozen | internal/server/channel_manual.go:56-69 | the bootstrap channel stays exactly as created |
| Governance.NodeIdsRun | internal/crypto/signature.go:65-113 | registered node identifiers have 32 characters |
| GovernanceGuards.AnswersExactly | internal/server/channel_manual.go:118-222 | in any state a promotion, demotion or kick answers what its first failing guard says |
| GovernanceGuards.SucceedsExactly | internal/server/channel_manual.go:118-286 | it succeeds if and only if the requester's registered key verifies the signed text, the time test accepts, the scope is CHANNEL, the channel exists and the requester holds the role; success changes exactly the target and adds one row, otherwise nothing changes |
| GovernanceGuards.MembersByOperation | internal/server/channel_manual.go:210-212 | an existing channel loses a member exactly by a kick that passes its guards, and gains none |
| GovernanceGuards.MembersExactly | internal/server/channel_manual.go:71-222 | in every run the members are the owner alone, or nobody if and only if some kick of the owner passed its guards |
| GovernanceGuards.CreatesExactly | internal/server/channel_manual.go:71-102 | what creating answers, guard by guard, and the whole new channel |
| GovernanceGuards.AvatarChangesExactly | internal/server/channel_manual.go:224-257 | what changing an avatar answers, guard by guard; success changes the avatar and nothing else |
| GovernanceGuards.AvatarExactly | internal/server/channel_manual.go:224-257 | in every run a channel's avatar is the last one set past all guards, before that the one it was created with |
| GovernanceGuards.DirectoryExactly | internal/crypto/signature.go:65-74 | a key is registered for a node if and only if a registration of it passed the identity check and it was neither forgotten nor replaced since |
| GovernanceGuards.HexReads | internal/crypto/signature.go:110-113 | each byte reads back from its two hexadecimal digits, the high one first |
| GovernanceGuards.SameIdentifierExactly | internal/crypto/signature.go:110-113 | two keys have the same identifier if and only if their hashes start with the same 16 bytes |
| Presence.NodeRepository.UpsertNode | internal/repository/postgres/node_repository.go:122-145 | inserts an unbanned row or leaves the ban columns alone |
| Presence.NodeRepository.IsNodeBanned | internal/repository/postgres/node_repository.go:191-225 | clears an expired ban and answers no; otherwise answers the row |
| Presence.NodeRepository.BanNode | internal/repository/postgres/node_repository.go:228-237 | bans an existing row; without a row nothing happens |
| Presence.NodeRepository.UnbanNode | internal/repository/postgres/node_repository.go:240-249 | clears the ban columns of an existing row |
| Presence.NodeManager.RegisterNode | internal/repository/redis/node_manager.go:51-83 | stores the node with a fresh time to live and enters a relay into the active set, which keeps covering the stored relays |
| Presence.NodeManager.RefreshHeartbeat | internal/repository/redis/node_manager.go:86-118 | renews a live entry with the new status; fails for an absent or expired one |
| Presence.NodeManager.RemoveNode | internal/repository/redis/node_manager.go:219-243 | deletes the entry, and a live relay from the active set |
| Presence.NodeService.RegisterNode | internal/service/node_service.go:48-103 | identity, ban check, presence, then a row write that may fail unnoticed |
| Presence.NodeService.Heartbeat | internal/service/node_service.go:106-137 | not found, banned or renewed |
| Presence.NodeService.ModeratorBanNode | internal/service/moderation_service.go:63-90 | bans the row and removes presence |
| Presence.LazyBanIsExact | internal/repository/postgres/node_repository.go:191-249 | the lazy query answers as the eager specification in every run with a nondecreasing clock |
| Presence.RegistrationKeepsAnswer | internal/repository/postgres/node_repository.go:122-131 | registering never changes the ban answer of any node |
| Presence.BanNeedsARow | internal/repository/postgres/node_repository.go:228-237 | after any run a ban is answered by later queries until it runs out if some registration's row write succeeded before, and otherwise has no effect |
| Presence.BanBoundsPresence | internal/service/node_service.go:48-137 | past the ban time plus the time to live a node whose ban stays in force is absent |
| Presence.ModeratorBanRemovesAtOnce | internal/service/moderation_service.go:80-90 | through the moderation path it is absent at once and stays absent while banned |
| Presence.PresenceBoundExactly | internal/service/node_service.go:48-137 | that bound holds in all runs if and only if the time to live is positive |
| Presence.NoExpiryNoBound | internal/server/admin_server.go:131-148 | for every non-positive time to live a banned node can stay present for ever |
| PresenceHistory.PresentExactly | internal/service/node_service.go:48-137 | in every run the store has a node if and only if its last accepted registration or heartbeat is within the time to live and nothing removed it later, with what was last registered and the last status |
| PresenceHistory.RegistrationAnswers | internal/service/node_service.go:48-69 | after any run a registration answers by its identity check and the bans of the run |
| PresenceHistory.HeartbeatAnswers | internal/service/node_service.go:106-137 | after any run a heartbeat answers by the last sighting and the bans of the run |
| PresenceHistory.RegisteredStaysPresent | internal/service/node_service.go:71-83 | a registered, unbanned node is present through the whole time to live |
| PresenceSteps.RegisterAlone | internal/service/node_service.go:48-89 | the steps of a registration left alone compute the whole operation |
| PresenceSteps.HeartbeatAlone | internal/service/node_service.go:106-133 | the same for a heartbeat |
| PresenceSteps.BanAlone | internal/service/moderation_service.go:80-90 | the same for an administrator's and a moderator's ban |
| PresenceSteps.UnbanAndRemoveAlone | internal/repository/postgres/node_repository.go:240-249 | the same for lifting a ban and for removing a node |
| PresenceSteps.OnlyFlightsStore | internal/service/node_service.go:60-81 | while a node is banned only a thread that was past its check before the ban stores it |
| PresenceSteps.AbsentExactly | internal/service/node_service.go:60-133 | an absent, banned node stays absent in all continuations if and only if no thread past its check is about to store it |
| PresenceSteps.RemovalFinalExactly | internal/service/moderation_service.go:80-90 | a moderator's removal is final while the ban is in force if and only if no store is pending when it happens |
| PresenceSteps.BanBoundsPresenceInterleaved | internal/service/node_service.go:48-137 | in every interleaving a banned node is absent past the last store in flight at the ban plus the time to live |
| PresenceSteps.RemovalIsNotFinal | internal/service/node_service.go:60-81 | for every node and time to live, a run in which a registration past its check makes the removal not final |
| RelaySelection.Shuffle | internal/repository/redis/node_manager.go:212-216 | a permutation, for every outcome of the random choices |
| RelaySelection.ShuffleRelays | internal/repository/redis/node_manager.go:197-198 | the same relays, without repetition |
| RelaySelection.Collect | internal/repository/redis/node_manager.go:172-194 | preferred and other lists hold exactly the eligible relays of the listing, by region |
| RelaySelection.GetActiveRelays | internal/repository/redis/node_manager.go:155-209 | no duplicates, only live non-excluded relays, min(limit, eligible) of them, preferred first and dropped only for other preferred ones |
| RelaySelection.ServiceGetActiveRelays | internal/service/node_service.go:140-146 | the same with the limit clamped to the maximum |
| RelaySelection.CutIsSelection | internal/repository/redis/node_manager.go:200-206 | any cut of preferred followed by others is such a selection |
| RelaySelection.RunKeyed | internal/repository/redis/node_manager.go:67-68 | in every run nodes are stored under their own identifier |
| RelaySelection.BannedNeverSelected | internal/repository/redis/node_manager.go:155-209 | no selection contains a node whose ban is in force past the time to live, or after a moderator's ban |
| Handshake.EnxameClient.InitiateHandshake | pkg/client_sdk/client.go:388-395 | remembers the fresh pair as pending and sends its public half |
| Handshake.EnxameClient.HandleKeyExchangeInit | pkg/client_sdk/client.go:571-580 | stores a key derived from a fresh pair and acknowledges with its public half |
| Handshake.EnxameClient.HandleKeyExchangeAck | pkg/client_sdk/client.go:582-593 | completes and consumes a pending pair; ignores an answer without one |
| Handshake.KeysHaveProvenance | pkg/client_sdk/client.go:571-593 | in all runs, forged messages included, every key combines a private key that a step of this client generated and a public key that a step delivered from that peer, and each pending pair is used at most once |
| Handshake.HistoryIsReal | pkg/client_sdk/client.go:388-593 | a client's recorded keys are those its steps generated and were delivered |
| Handshake.PairExec | pkg/client_sdk/client.go:388-593 | the pair's invariant: at most one message under way, which fits the pending pair, or agreement |
| Handshake.HandshakeAgreement | pkg/crypto/e2e/e2e.go:33-48 | with one initiator and no repeated init, whenever nothing is pending both sides have equal keys or neither has one |
| Handshake.FairExec | pkg/client_sdk/client.go:388-593 | without forgery, for any inits: the two sides generate different keys, their messages carry their own halves, and who answered has a session |
| Handshake.AgreeExactly | pkg/client_sdk/client.go:571-593 | without forgery, for any crossed, repeated, lost or reordered inits: the sides agree if and only if neither has a key or the two derivations mirror each other |
| Handshake.CompletionAgreesExactly | pkg/client_sdk/client.go:582-593 | completing a pending handshake leaves equal keys if and only if the responder last answered the init pending now and this is that answer |
| Handshake.SumMaxDhSymmetric | pkg/crypto/e2e/e2e.go:33-48 | a key function with the symmetry the theorems assume |
| Handshake.SumMaxDhSeparates | pkg/crypto/e2e/e2e.go:33-48 | the same function gives equal shared keys only to the same two private keys |
| Handshake.CrossedInitsDisagree | pkg/client_sdk/client.go:582-593 | for every symmetric, separating key function and every pair, crossed inits complete with different keys |
| Handshake.RepeatedInitDisagrees | pkg/client_sdk/client.go:388-395 | likewise for a repeated init with one initiator |
| FileTransfer.FileClient.WriteChunks | pkg/client_sdk/client.go:679-699 | for every schedule of short reads the stored pieces concatenate to the file, with consecutive indices and their hashes |
| FileTransfer.FileClient.SendFile | pkg/client_sdk/client.go:659-757 | refuses files over 10 MB; on success the manifest describes the stored pieces of the file |
| FileTransfer.FileClient.HandleChunkResponse | pkg/client_sdk/client.go:1215-1229 | overwrites the named chunk without a check |
| FileTransfer.FileClient.SaveFileToDisk | pkg/client_sdk/client.go:760-790 | writes chunk by chunk and stops at the first missing or mismatching one |
| FileTransfer.PathInjective | pkg/client_sdk/client.go:694-694 | chunk names of one file differ by index |
| FileTransfer.SaveSucceedsExactly | pkg/client_sdk/client.go:772-787 | saving succeeds if and only if every chunk is present with its hash |
| FileTransfer.SavedIsPrefix | pkg/client_sdk/client.go:760-790 | with a collision-free hash, from any store whatever, a prefix of the file is written, and the whole file on success |
| FileTransfer.RoundTrip | pkg/client_sdk/client.go:675-790 | what was sent and not overwritten is saved exactly |
| FileTransfer.NeverWrongBytes | pkg/client_sdk/client.go:760-790 | after any chunk responses, saving succeeds if and only if the chunks are again the originals, and then writes exactly the file |
| FileTransfer.ArrivedIsSaved | pkg/client_sdk/client.go:1215-1229 | when for every piece the last response that names its chunk carries it, saving writes the whole file, from an empty store too |
| FileTransfer.UnnamedStays | pkg/client_sdk/client.go:1226-1229 | responses that do not name a chunk leave it as it was |

## Left out

- Relay.SessionManager.ForwardEnvelope: requires identifiers of at least eight characters on the paths whose log line prints a prefix, because a shorter one panics there; the same holds for registering, subscribing and blacklisting.
- RelayServer.StreamMessages: requires a first envelope, and that it is not a payload for the target RELAY, whose five letters panic in a log line.
- Relay.RunFifo: the sender goroutine's receive is one step that takes the oldest envelope; what that goroutine does with the zero value of a closed queue (it does not test for closure, pkg/relay/server.go:143) is not modelled, and no clean shutdown is claimed.
- RelayInterleaving.CounterLaws: counters are unbounded integers, without 64-bit wrap-around.
- RelayInterleaving.BroadcastAlone: in the interleaved model Range may also end early or skip subscribers, which allows more runs than the program has.
- RelayInterleaving.OwnExec: allocating the queue is one step with the preceding blacklist check, since the queue is local until it is stored.
- StreamManager.StreamManager.constructor: receivers are counted, not named. The server never sets its stream manager (internal/server/grpc_server.go:46-52), so the model starts from the manager's own constructor.
- RateLimiter.WindowBound: assumes that the clock readings do not decrease in lock order, which the program does not ensure; BoundExactly says what holds without that. Instants are unbounded integers.
- Governance.ChannelServer.CreateChannel: the existence check and the store are one step, so two simultaneous creations of one name are not modelled; each request holds its channel's lock.
- Governance.GovernanceReplay: the audit table starts empty together with the server's in-memory channels; rows of earlier processes are outside the model.
- Governance.ChannelServer.VerifyGovernanceSignature: a lookup that returns neither node nor error (internal/repository/postgres/node_repository.go:178-179) is a failed call with unchanged state, since the panic is recovered (internal/server/interceptors.go:68-73).
- Governance.InicioIsFrozen: assumes a hash of 32 bytes; signature verification and hashing are parameters.
- Presence.BanBoundsPresence: each registration and heartbeat happens at one instant; PresenceSteps.BanBoundsPresenceInterleaved drops that. A positive time to live is required, and PresenceBoundExactly shows that the bound fails without one.
- Presence.NodeManager.RegisterNode: endpoints, versions and timestamps in the entry are left out; a non-positive duration means no expiry, and the client library's keep-current-expiry value is not modelled.
- Presence.NodeService.ModeratorBanNode: starts after the moderator's key and signature were accepted; the stored action and the published event are left out.
- RelaySelection.GetActiveRelays: the key listing is a parameter that contains every live key once, in any order.
- Handshake.HandshakeAgreement: assumes symmetry of the key function, fresh private keys that are new, one initiator and one pending init, and that nobody forges messages between the two. The client's callers can break the second pair of assumptions (pkg/client_sdk/client.go:384, 818, 1334).
- Handshake.AgreeExactly: covers those callers; it assumes, besides symmetry and no forgery between the two, that different pairs of private keys give different shared keys. A forger of their messages is not modelled there.
- FileTransfer.NeverWrongBytes: assumes no collision with the file's own chunks and that the manifest is not replaced; path cleaning of chunk names, failing chunk writes and failing output writes are not modelled.
- Session fields that carry no behaviour (public key, session identifier, connection and activity times) and GetStats, which reads the two counters.
- Database, Redis and network failures other than the failed row write, failed node lookup and failed log write named above.
- Channel information, recent chats, wiki, tags and channel configuration: simple lookups and upserts.
- Client message sending and channel-key exchange: the cached-key branch never assigns the key (pkg/client_sdk/client.go:801-812) and the key response is sent encrypted but parsed without decryption (pkg/client_sdk/client.go:1141-1151), so no end-to-end claim follows from the code.
- The insides of Ed25519, X25519, SHA-256, AES-GCM, bcrypt and JWT.
- Envelope serialisation, generated protobuf and gRPC code, and the JSON decoder of relay commands, which is a parameter.
- Cluster join and synchronisation, grid jobs, update and health checks.
- User interfaces, command line, load simulator and deployment files.
