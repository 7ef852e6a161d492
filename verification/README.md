# FastChat Room: verified model

FastChat Room is a chat application whose peers exchange messages and files directly, with a
signaling service that only brings them together. This project models the parts of it with the most
state and proves what they promise, over all inputs, all runs and, where threads or peers
interleave, all interleavings.

| file | what it models |
|---|---|
| `JoinRecords`, `JoinLimiting`, `JoinPruning`, `JoinSliding`, `JoinLadder`, `Windows` | the escalating join limiter: records, runs, invisible pruning, the sliding failure bound, the ladder |
| `JoinRates`, `JoinHistory`, `JoinForgetting` | the same limiter seen from outside: its answers follow from the calls made and the answers given |
| `ConnectionLimiting`, `ConnectionHistory`, `FloodControl`, `ConnectionCeiling` | the connection limiter with backoff and its answers as a function of history, the token bucket, the lock-free connection ceiling |
| `Rooms` | one room: peers, owner, visibility, mutes and the lifecycle |
| `RoomDirectory`, `RoomManager` | all rooms and the code index, as a value and as a class of mutable rooms |
| `RoomSteps`, `RoomIndex`, `RoomLifetime`, `RoomOwnership` | what every run of the manager keeps |
| `RoomRotation`, `RoomEntry`, `RoomPowers`, `RoomTicks` | what a rotation, a join, a command of the owner, a departure and a tick do, and when, after any run |
| `CodeRotation`, `RotationInvariant`, `RotationLaws` | code rotation split at each access to a shared map, interleaved with everything else: the steps, what they keep, and which codes lead to a room |
| `Sessions`, `Gateway`, `Wiring`, `Routing`, `SignalingServer` | the session registry, the message handlers, who is ever sent a room code and into which socket, and the handlers carried out in place |
| `Service`, `Admission`, `Deliveries`, `Rosters`, `Announcements` | runs of the whole server: its handlers as runs of the manager, who is let in, what arrives in which channel, and what clients know |
| `JsStrings`, `Numerals`, `Feistel`, `TokenMixing`, `RoomToken` | the encrypted room token and the resolution of room identifiers |
| `Chunking`, `FileTransfer`, `TransferLimits` | slicing, framing, the pipeline of sender, ordered channel and receiver, and its memory limit |
| `ChatHistory` | the chat store as a replicated, deduplicated, ordered list |

Code that works in place is modelled by classes and loops proved against functions on values; the
theorems about runs are about those functions. `dafny verify dfyconfig.toml` checks everything.

Assumptions, where a theorem uses them as preconditions or parameters:

- Clocks never go back. Instants and durations of the limiters are natural numbers of nanoseconds, wall-clock seconds are integers, and the tokens of the flood bucket are reals.
- Room ids are never handed out twice. The code generator's draws are a parameter; the sequential model only needs that a drawn code is not in the index, the interleaved one that no code is drawn twice in a run; where the owner's knowledge of a code is concerned, drawn codes are not empty.
- Peers join without the owner flag, as the only networked caller does. Rooms hold at least one participant and the connection limiter admits at least one attempt a minute where a theorem says so.
- Rate keys, passwords and chat contents are opaque values; encryption and the peer connection are an ordered channel that delivers what it was given.
- The comparison of message ids in the chat store is some total order on ids; for convergence, an id determines its message.
- A message put into an open channel arrives in it; handlers of the signaling server are atomic.

Where the repository's text and its code disagree, the model follows the code:

- `services/signaling/src/room/manager.rs:362-363` says a kicked peer's rate key joins a blocklist; the code only removes the peer and returns the key, so a kicked client may join again.
- `services/signaling/src/room/broadcast.rs:75-78` announces a closing deadline ten seconds away, whatever grace period is configured.
- The index entry of a room is meant to be its current code alone (`services/signaling/src/room/manager.rs:80-113`). A creation inserts the room before its code, and the sweep takes any room in the map that is due (`services/signaling/src/room/state.rs:249-262`, `services/signaling/src/room/manager.rs:691-712`), so a creation that is stalled between its two inserts for at least one interval of its room can be overtaken by a rotation and then leave a code that is not the room's own (`StalledCreationLeavesStaleCode`). `OneCodeIffNotOvertaken` is the exact condition on a run, and `PromptCreationIsSafe` shows that it holds whenever creations complete within the interval.
- `services/signaling/src/limiter/join.rs:143-145` looks for the oldest attempt of a full window, and with zero joins per minute, which `FASTCHAT_RATE_LIMIT_JOIN_PER_MIN` can set, the window is full and empty: every check of a key that is not locked out aborts (`CheckAbortsIff`).
- The manager counts an owner's active rooms by the stored key (`services/signaling/src/room/manager.rs:164-172`), and a room created over HTTP for nobody stores one too (`services/signaling/src/lib.rs:78-95`); `CountIsByPresentOwner` says exactly when the count is that of rooms present owners have.
- `file-complete` marks a transfer completed even when no frame was recognised, which happens when the transfer id is longer than its field or has blanks at its ends; `CompletedHoldsFileIff` is the exact condition.

## Model

| member | source | states |
|---|---|---|
| JoinLimiting.JoinLimiter.WithLadder | services/signaling/src/limiter/join.rs:98-117 | a new limiter has no records, a threshold and window of at least one, and the default ladder in place of an empty one |
| JoinLimiting.JoinLimiter.CheckJoinPermittedAt | services/signaling/src/limiter/join.rs:120-159 | answer and new records are those of the specification step `Check` for every record and instant: locked, rate limited, admitted, or aborted by indexing an empty list |
| JoinLimiting.CheckAbortsIff | services/signaling/src/limiter/join.rs:143-145 | after every run a check aborts if and only if the configured joins per minute are zero and the key is not locked out |
| JoinLimiting.JoinLimiter.RecordFailureAt | services/signaling/src/limiter/join.rs:168-211 | the new records are those of the step `Fail`: ignored while locked, counted in the window, locking on the rung of the level |
| JoinLimiting.JoinLimiter.RecordSuccessAt | services/signaling/src/limiter/join.rs:220-225 | the failures of a tracked key are forgotten and nothing else changes |
| JoinLimiting.JoinLimiter.PruneStaleAt | services/signaling/src/limiter/join.rs:233-255 | exactly the records that are stale at the instant disappear |
| JoinLimiting.JoinLimiter.GetLadderLevelAt | services/signaling/src/limiter/join.rs:263-270 | reports the level after the quiet-time reset, and stores that reset |
| JoinLimiting.JoinLimiter.GetLockoutRemainingAt | services/signaling/src/limiter/join.rs:278-288 | the time left of an active lockout, without changing any record |
| JoinLimiting.RunKeepsInv | services/signaling/src/limiter/join.rs:120-255 | over every run with a clock that never goes back: a locked key stores no failures and no last failure and its lockout end is its lock, and a level above zero comes with a lockout end |
| JoinPruning.StaleIsNew | services/signaling/src/limiter/join.rs:233-255 | a record that pruning drops is indistinguishable, now and later, from a key never seen |
| JoinPruning.PruningSimulation | services/signaling/src/limiter/join.rs:233-255 | a run with prunes simulates the same run without them, up to window entries that have expired |
| JoinPruning.PruningIsInvisible | services/signaling/src/limiter/join.rs:233-255 | inserting prunes anywhere into any run changes no result of any check, level query or remaining-time query |
| JoinSliding.SlidingFailureBound | services/signaling/src/limiter/join.rs:168-211 | if no rung is shorter than the failure window, no stretch of any run that fits into one window and has no success counts more than `threshold` failures of a key |
| JoinSliding.ShortPenaltyBreaksBound | services/signaling/src/limiter/join.rs:190-208 | with a rung shorter than the window, a concrete run (climb to the rung, wait it out, fail once more) exceeds the bound |
| JoinSliding.SlidingBoundIff | services/signaling/src/limiter/join.rs:168-211 | the bound holds of all runs if and only if no rung is shorter than the window |
| JoinSliding.DefaultsAreLong | services/signaling/src/limiter/join.rs:8-20 | the default ladder with a five minute window meets that condition |
| JoinLadder.LadderLaw | services/signaling/src/limiter/join.rs:43-57 | over every run the lockouts of a climb take the rungs `ladder[min(n, len) - 1]` in order, none starts before the last one ended, and the level reported later is the one this history prescribes |
| JoinLadder.ClimbTakesTime | services/signaling/src/limiter/join.rs:190-208 | n lockouts without a reset span at least the sum of the first n - 1 penalties |
| JoinLadder.LadderFallsOnlyWhenQuiet | services/signaling/src/limiter/join.rs:43-57 | a stored level falls only once twice the last penalty has passed since the last counted failure or the end of the last lockout, whichever is later, and then to zero, or to the first rung when the call that reset it locks at once |
| JoinRates.CheckAnswer | services/signaling/src/limiter/join.rs:120-159 | after any run with prunes, from the answers given alone: a key reported as locked out is told how long, any other is permitted if and only if fewer than `max_joins` of its checks were permitted in the last minute, and is otherwise told when the oldest of these will be a minute old (or the check aborts, with zero joins per minute) |
| JoinRates.GrantedPerMinute | services/signaling/src/limiter/join.rs:143-157 | in any run with prunes no stretch of one minute holds more than `max_joins` permitted checks of a key |
| JoinHistory.LimiterFollowsHistory | services/signaling/src/limiter/join.rs:160-288 | after any run with prunes the reported level and remaining lockout are those of a reference that keeps all failures and successes of the key and never filters or prunes: a success forgives the failures, a failure that makes the threshold within the window starts the next rung |
| JoinForgetting.IdleKeysForgotten | services/signaling/src/limiter/join.rs:233-255 | a prune forgets every key that has been idle for three of the longest penalties, a minute and the failure window |
| ConnectionLimiting.ConnectionLimiter.CheckAndRecord | services/signaling/src/limiter/connection.rs:39-86 | answer and new records are those of the specification for every key and instant |
| ConnectionLimiting.ConnectionLimiter.PruneStale | services/signaling/src/limiter/connection.rs:89-100 | exactly the records without a recent attempt and without an active block are dropped |
| ConnectionLimiting.AcceptedPerMinute | services/signaling/src/limiter/connection.rs:39-86 | over any run with sweeps, no minute sees more than `max_per_minute` accepted attempts of a key |
| ConnectionLimiting.BlockNeverShrinks | services/signaling/src/limiter/connection.rs:55-86 | an active block is never moved earlier, lets nothing through, and ends at most `max_backoff` after the last attempt, even across sweeps |
| ConnectionLimiting.SilenceHeals | services/signaling/src/limiter/connection.rs:39-86 | after a minute and a maximal backoff of silence the next attempt is accepted |
| ConnectionHistory.LimiterFollowsHistory | services/signaling/src/limiter/connection.rs:39-86 | after any run with sweeps an attempt is answered as by a reference that keeps all accepted attempts and counts refusals: rejected while blocked, else accepted if and only if fewer than `max_per_minute` attempts were accepted in the last minute, else blocked for a time that doubles with each refusal up to the tenth and the maximum |
| ConnectionHistory.TrackedIff | services/signaling/src/limiter/connection.rs:89-100 | a sweep keeps exactly the keys with an attempt in the last minute plus the longest block |
| FloodControl.TokenBucket.TryAcquire | services/signaling/src/limiter/flood.rs:28-40 | verdict, tokens and refill time are those of the specification in real arithmetic |
| FloodControl.TokensAreLeastAllowance | services/signaling/src/limiter/flood.rs:28-40 | the token count is the minimum, over all suffixes of the run, of capacity plus refill since the suffix began minus what the suffix accepted |
| FloodControl.PassesIff | services/signaling/src/limiter/flood.rs:28-40 | a request passes exactly when its cost fits into every one of those allowances |
| FloodControl.FloodBound | services/signaling/src/limiter/flood.rs:28-40 | over every stretch of a run the accepted cost is at most capacity plus rate times elapsed time |
| ConnectionCeiling.CounterCountsGuards | services/signaling/src/limiter/ceiling.rs:46-62 | in every interleaving of load, exchange and drop steps the counter equals the number of live guards and never exceeds the ceiling |
| ConnectionCeiling.FailedExchangeMeansProgress | services/signaling/src/limiter/ceiling.rs:46-62 | an exchange fails only if another socket completed an acquisition or a release since the load |
| ConnectionCeiling.GuardsMove | services/signaling/src/limiter/ceiling.rs:46-62 | in every interleaving a load is turned away if and only if `max` guards are live, and the set of live guards grows only by an exchange of the current count and shrinks only by the drop of a holder |
| ConnectionCeiling.AloneAcquires | services/signaling/src/limiter/ceiling.rs:46-62 | an undisturbed call acquires a guard if and only if fewer than `max` are live, is refused otherwise, and affects no other socket |
| Rooms.RoomState.WithHopping | services/signaling/src/room/state.rs:185-231 | the new room is in `Creating`, expires after the initial duration, and holds its owner, if any, as only peer |
| Rooms.RoomState.AddPeerWithPassword | services/signaling/src/room/state.rs:296-371 | adds the peer last, or reports the first of the error conditions in their order and changes nothing |
| Rooms.RoomState.RemovePeer | services/signaling/src/room/state.rs:374-385 | removes the first peer with the id, and its blocks, or changes nothing |
| Rooms.RoomState.SetOwner | services/signaling/src/room/state.rs:560-576 | flags the named peer and nobody else, and stores its key when it is present |
| Rooms.RoomState.EvaluateLifecycle | services/signaling/src/room/state.rs:580-618 | one lifecycle transition and its action, for every state and instant |
| Rooms.RoomState.ExtendByOwner | services/signaling/src/room/state.rs:623-641 | extends by one extension and reopens, only for an owner and only in the extendable window |
| Rooms.RoomState.CloseByOwner | services/signaling/src/room/state.rs:645-665 | starts the grace period, only for an owner and only once |
| Rooms.RoomState.RekeyByOwner | services/signaling/src/room/state.rs:668-700 | replaces the password, only for the owner and before closing |
| Rooms.RoomState.SetChatVisibilityBlocked | services/signaling/src/room/state.rs:393-408 | a present peer enters or leaves the blocked set; others are refused |
| Rooms.RoomState.SetFileVisibilityBlocked | services/signaling/src/room/state.rs:411-426 | the same for files |
| Rooms.RoomState.SetMuted | services/signaling/src/room/state.rs:449-478 | sets or clears the mute of the first peer with the id, or reports that there is none |
| Rooms.RoomState.CheckExpiredMutes | services/signaling/src/room/state.rs:481-495 | lifts exactly the mutes that have run out and reports exactly their peers |
| RoomManagement.RoomManager.GenerateUnique | services/signaling/src/room/code.rs:55-67 | the first of at most a thousand draws that the index does not hold, or none |
| RoomManagement.RoomManager.CreateRoomWithOptions | services/signaling/src/room/manager.rs:80-113 | both maps gain the new room under a code the index did not hold, or nothing changes |
| RoomManagement.RoomManager.RotateRoomCodeAt | services/signaling/src/room/manager.rs:122-161 | a hopping room moves to a fresh code in both maps; other rooms keep theirs, and failures change nothing |
| RoomManagement.RoomManager.JoinRoomWithPassword | services/signaling/src/room/manager.rs:207-222 | the named room, and no other, takes the peer in or refuses it |
| RoomManagement.RoomManager.LeaveRoom | services/signaling/src/room/manager.rs:592-635 | the peer goes; an emptied room leaves both maps; a departing owner is succeeded by the first remaining peer |
| RoomManagement.RoomManager.KickPeer | services/signaling/src/room/manager.rs:364-393 | only the owner removes another present peer; every refusal changes nothing |
| RoomManagement.RoomManager.TransferOwnership | services/signaling/src/room/manager.rs:455-491 | only the owner hands over, and only to another present peer |
| RoomManagement.RoomManager.DetonateRoom | services/signaling/src/room/manager.rs:297-322 | only the owner removes the room and its code, at once |
| RoomManagement.RoomManager.SetRoomLocked | services/signaling/src/room/manager.rs:494-519 | only the owner sets the lock |
| RoomManagement.RoomManager.ModeratePeer | services/signaling/src/room/manager.rs:396-583 | the four moderation calls: only the owner changes a present peer's mute or blocks |
| RoomManagement.RoomManager.ExtendRoom | services/signaling/src/room/manager.rs:262-274 | the extension of the named room, or the error of its state |
| RoomManagement.RoomManager.CloseRoom | services/signaling/src/room/manager.rs:277-290 | the closing of the named room, or the error of its state |
| RoomManagement.RoomManager.RekeyRoom | services/signaling/src/room/manager.rs:241-258 | the new password of the named room, or the error of its state |
| RoomManagement.RoomManager.TickLifecycle | services/signaling/src/room/manager.rs:642-686 | whatever the order of iteration, every room is evaluated once, exactly the destroyed ones leave the map, and exactly their codes leave the index |
| RoomManagement.RoomManager.CountActiveRoomsByOwner | services/signaling/src/room/manager.rs:164-172 | the size of the set of active rooms whose stored owner key is the given one |
| RoomIndex.IndexAgreement | services/signaling/src/room/manager.rs:80-161 | after any sequence of operations the index maps a code to an id exactly when that room is live under that code, and an operation that fails next changes neither map |
| RoomLifetime.NoBankedLifetime | services/signaling/src/room/state.rs:580-641 | in every reachable room expiry is creation plus initial duration plus one extension per success, and at no time more than max(initial, threshold + extension) is left |
| RoomLifetime.OneWay | services/signaling/src/room/state.rs:580-706 | over any stretch of any run the lifecycle goes one way, and a closing room keeps its deadline and expiry |
| RoomLifetime.ExpiredRoomsGo | services/signaling/src/room/manager.rs:642-686 | a room that a tick finds expired is gone from both maps for good once a tick comes a grace period later, whatever happens in between; this covers rooms without peers |
| RoomLifetime.ClosedRoomsGo | services/signaling/src/room/manager.rs:277-290 | the same for a room its owner closed |
| RoomOwnership.OwnershipInvariant | services/signaling/src/room/state.rs:296-385 | in every reachable room ids are distinct and within capacity, peers stand in joining order, blocked sets name peers; a room created for an owner has exactly one owner whose key is the stored one, one created for nobody has none |
| RoomOwnership.SeniorPeerInherits | services/signaling/src/room/manager.rs:617-629 | a departing owner is succeeded by a remaining peer with least joining time, who becomes the only owner with its key stored |
| RoomOwnership.CountIsByPresentOwner | services/signaling/src/room/manager.rs:164-172 | the count is that of active rooms whose present owner has the key if and only if no room that is now active was created with that key but without an owner |
| RoomOwnership.OwnerlessRoomIsCounted | services/signaling/src/lib.rs:78-95 | a room created with a key but without an owner is counted for that key although nobody owns it |
| RoomRotation.RotationRotates | services/signaling/src/room/manager.rs:122-161 | field by field: a rotation of a hopping room moves it to the first of a thousand draws that is not in the index, which gains that code and loses the old one; with no such draw it fails, a room that does not hop keeps its code, and in these cases nothing moves |
| RoomRotation.RunRotates | services/signaling/src/room/manager.rs:122-161 | the same of a live hopping room after any run, whose code is then in the index |
| RoomRotation.CreationCreates | services/signaling/src/room/manager.rs:80-113 | a creation makes a newborn room under the first unused draw and enters it into both maps, or makes nothing when a thousand draws are in use |
| RoomEntry.SecretIsLastSet | services/signaling/src/room/state.rs:668-700 | after any run a live room asks for the secret that its creation or its latest successful rekey set |
| RoomEntry.EntryIff | services/signaling/src/room/state.rs:296-371 | after any run a join is refused with the first that applies of: no such room, another secret than the one set last, closing, locked, full, id present; otherwise the peer stands last in the room; in no case does anything else move |
| RoomEntry.WelcomeIff | services/signaling/src/room/state.rs:296-371 | a join succeeds if and only if the room is live, open, not locked, below capacity and without that id, and the secret offered is the one set last, if one is asked for |
| RoomPowers.OwnersCommand | services/signaling/src/room/manager.rs:241-583 | after any run a kick, transfer, extension, closing, detonation, rekey, lock or moderation is answered with the first refusal that applies, strangers first, or is obeyed: its own fields change as they should, peer by peer, and nothing else in any room moves |
| RoomPowers.PeersLeave | services/signaling/src/room/manager.rs:592-635 | after any run a peer that leaves is gone, and the room with it if it was the last; the first of the rest takes over from an owner with its own key, and nothing else moves |
| RoomTicks.TickAges | services/signaling/src/room/state.rs:580-618 | after any run a tick removes exactly the rooms that are deserted or out of grace, with their codes, closes those past their expiry, opens to extension those within the threshold, lifts exactly the mutes that ran out, and changes nothing else |
| RoomTicks.OwnerExtendsIff | services/signaling/src/room/state.rs:623-641 | right after a tick an extension succeeds if and only if it is the owner's, the room has not started closing, and its time left is within the threshold |
| RotationInvariant.StepKeepsInv | services/signaling/src/room/manager.rs:122-161 | every atomic step of a rotation, creation or removal keeps the invariant on maps, locks, calls in progress and the index entries of each live room |
| RotationLaws.SettledEntries | services/signaling/src/room/manager.rs:122-161 | in every interleaving the index entries of a live published room that no rotation is turning are its current code and, if a rotation removed its first code before the creation published it, that first code, which is then another one |
| RotationLaws.OneCodeIffNotOvertaken | services/signaling/src/room/manager.rs:105-106 | in every interleaving, the entries of such a room are its current code alone if and only if no rotation removed its first code before its creation published it |
| RotationLaws.EntriesDuringRotation | services/signaling/src/room/manager.rs:122-161 | at any moment, also while a rotation is turning it, a live room that was not overtaken is reached only by its current code or the code the holder of its lock has just inserted, by one or two codes once it is published, and by none before |
| RotationLaws.PromptCreationIsSafe | services/signaling/src/room/state.rs:249-262 | a room whose creation reaches the index before its first periodic rotation is due is never overtaken, so both guarantees hold of it in every interleaving |
| RotationLaws.StalledCreationLeavesStaleCode | services/signaling/src/room/manager.rs:691-712 | a concrete run in which a creation is stalled for its room's interval of one second, the sweep rotates the room meanwhile, and the settled room keeps an entry that is not its code |
| RotationLaws.RotationsTakeTurns | services/signaling/src/room/manager.rs:123-128 | two calls never both hold the lock of a live room |
| Sessions.RedactionRemovesCode | services/signaling/src/ws/protocol.rs:431-481 | redaction removes the code from every message except the acknowledgment to the creator |
| Sessions.PeerSessionRegistry.RegisterConnection | services/signaling/src/ws/session.rs:96-105 | the connection and its channel are recorded, replacing an earlier channel of the same peer |
| Sessions.PeerSessionRegistry.Unregister | services/signaling/src/ws/session.rs:127-145 | the channel goes, and the room with its metadata when it was the last |
| Sessions.PeerSessionRegistry.UnregisterConnection | services/signaling/src/ws/session.rs:108-118 | the connection goes together with the channel of the peer it was registered for |
| Sessions.PeerSessionRegistry.SetRoomOwner | services/signaling/src/ws/session.rs:70-74 | the owner of a known room is replaced; an unknown room stays unknown |
| Sessions.PeerSessionRegistry.SendToPeer | services/signaling/src/ws/session.rs:150-157 | one message, redacted for that peer, if the peer has a channel |
| Sessions.PeerSessionRegistry.Broadcast | services/signaling/src/ws/session.rs:162-178 | each channel but the excluded one gets the message once, redacted for its peer, in some order |
| Sessions.MailIsBroadcast | services/signaling/src/ws/session.rs:162-178 | whatever the order, what a broadcast puts into channels is one fixed set of deliveries |
| SignalingServer.Server.CreateRoom | services/signaling/src/ws/mod.rs:261-391 | limits, creation, registration, metadata, session and acknowledgment as the handler specification says; the registry stays true and no code of a hopping room is sent to anyone but its owner |
| SignalingServer.Server.JoinRoom | services/signaling/src/ws/mod.rs:393-640 | the checks in order, the join, registration, metadata, notices and the rotation of a hopping room; registry and redaction stay sound |
| SignalingServer.Server.KickPeer | services/signaling/src/ws/mod.rs:950-1021 | the target is told and the others are; its channel stays until its socket closes; registry and redaction stay sound |
| SignalingServer.Server.TransferOwnership | services/signaling/src/ws/mod.rs:1146-1224 | manager and registry change owner together, and only then is the room told; registry and redaction stay sound |
| SignalingServer.Server.DetonateRoom | services/signaling/src/ws/mod.rs:1409-1459 | the room is announced as detonated and forgotten, and the caller's session is cleared; registry and redaction stay sound |
| SignalingServer.Server.CloseSocket | services/signaling/src/ws/mod.rs:173-234 | the session is cleaned up, the room closed or its succession announced; registry and redaction stay sound |
| Routing.RegistryFollowsManager | services/signaling/src/ws/session.rs:40-206 | after every sequence of client messages, disconnects, ticks and HTTP requests each room in the registry is live, its metadata is the manager's owner and hopping flag, and each of its channels is the socket registered for that room and peer |
| Routing.CodesReachOnlyOwners | services/signaling/src/ws/session.rs:150-178 | at every step of every run, a message with a code of a hopping room is meant for the owner (the last owner, for a room that is just gone) and goes into the socket registered for that owner in that room; and the direct reply carries a code only to a caller who has just created or joined the room, and none of a hopping room unless the caller owns it |
| Wiring.HandleAddressed | services/signaling/src/ws/session.rs:96-145 | every handler keeps each channel the socket registered for its room and peer, and every delivery goes into the socket registered for the peer it is meant for |
| Service.CommandsReachManager | services/signaling/src/ws/mod.rs:748-1459 | the handlers' own checks refuse nothing the manager would allow: what a member of a room, a closing socket, a tick or an HTTP request asks for is done to the rooms exactly as the manager does it |
| Service.ServedIndexAgrees | services/signaling/src/room/manager.rs:80-161 | after any sequence of client messages, disconnects, ticks and HTTP requests the code index and the live rooms agree |
| Service.JoinUsesUpCode | services/signaling/src/ws/mod.rs:393-640 | after any run, the code by which somebody joins a hopping room leads nowhere after the join, provided one of a thousand draws is unused, and the room is under the first such draw |
| Admission.RoomsStayBounded | services/signaling/src/limiter/ceiling.rs:36-42 | after any sequence of messages and requests there are at most `max_rooms` rooms |
| Admission.CreatesIff | services/signaling/src/ws/mod.rs:261-391 | a socket is given a room if and only if it acts for none, neither limit is reached and an unused code is drawn; it then owns a newborn room and is its owner's channel; otherwise nothing changes |
| Admission.JoinsIff | services/signaling/src/ws/mod.rs:393-640 | a socket is let in if and only if it acts for no room, the limiter let it pass, its code leads to a live, open, unlocked room below capacity without that id, and the secret is right; it is then that peer's channel; otherwise nothing changes |
| Admission.RotatesWhenDue | services/signaling/src/room/state.rs:249-262 | after any run the periodic rotation moves a room to another code if and only if it hops, has a positive interval that has run out since the last rotation, has an owner, and an unused code is drawn |
| Admission.RelaysToTarget | services/signaling/src/ws/mod.rs:642-746 | a relayed message reaches the channel of the target in the sender's room, under the sender's name, or nobody, and only then is the sender told so |
| Deliveries.EveryoneIsTold | services/signaling/src/ws/session.rs:150-178 | after any run a broadcast puts into each channel of the room but the excepted one the message as its peer may see it, which is unchanged for the present owner and in a room that does not hop, and nothing anywhere else; a message to one peer does the same for that peer |
| Deliveries.OwnerKnowsCode | services/signaling/src/ws/session.rs:77-83 | after any run the owner of a hopping room whose channel is open has been told the room's present code: the last code sent into that channel is that code |
| Deliveries.RotationIsAnnounced | services/signaling/src/room/manager.rs:122-161 | whatever moves a live hopping room to another code puts the announcement of that code into its owner's channel |
| Rosters.ClientsKnowTheRoom | services/signaling/src/ws/mod.rs:393-640 | after any run a client that starts from the list in its welcome and follows the notices of arrivals and departures knows exactly which other peers are in its room |
| Announcements.EverythingIsAnnounced | services/signaling/src/ws/mod.rs:173-1459 | after any run, whatever arrives next: every open channel of a room is told of every change to its lock, password, owner and closing, and of its end |
| Feistel.EncipherDecipher | apps/room/src/lib/utils/token.ts:116-125 | deciphering is undone by enciphering, for any round function |
| Feistel.DecipherEncipher | apps/room/src/lib/utils/token.ts:85-94 | enciphering is undone by deciphering, for any round function |
| Feistel.EncipherBlock | apps/room/src/lib/utils/token.ts:85-94 | the sixteen-round loop computes the network of the specification |
| Feistel.DecipherBlock | apps/room/src/lib/utils/token.ts:116-125 | the reversed loop computes its inverse |
| Feistel.ComputeIntegrityTag | apps/room/src/lib/utils/token.ts:37-52 | the loop computes the 24-bit tag of the specification |
| TokenMixing.RoundSeparates | apps/room/src/lib/utils/token.ts:27-32 | under one key the round function takes no value twice, and no two keys do the same to one input |
| TokenMixing.TagSeparates | apps/room/src/lib/utils/token.ts:37-52 | values that differ in one of their five bytes have different 32-bit states behind their tags, and different tags unless the top bytes of the states, which the tag drops, differ |
| RoomToken.DecodeEncode | apps/room/src/lib/utils/token.ts:73-104 | for any round and tag function, decoding the token of a valid code gives the trimmed code |
| RoomToken.EncodeDecode | apps/room/src/lib/utils/token.ts:107-144 | for any round and tag function and any string, what decodes to a code is, trimmed and in lower case, the token of that code |
| RoomToken.EncodeInjective | apps/room/src/lib/utils/token.ts:73-104 | different codes have different tokens |
| RoomToken.Encode | apps/room/src/lib/utils/token.ts:73-104 | the method computes the token of the specification, or reports an invalid code |
| RoomToken.Decode | apps/room/src/lib/utils/token.ts:107-144 | the method computes the code of the specification, or rejects |
| RoomToken.ResolutionIsCanonical | apps/room/src/lib/utils/token.ts:153-190 | every resolution is a valid code with its own token, and resolving either of them gives the same pair |
| RoomToken.ResolvesIffNamed | apps/room/src/lib/utils/token.ts:153-190 | for every input: it resolves to a room if and only if what is left of it after trimming and taking the identifier out of a link is the token of the room in any letter case, or anything that is no token and whose decimal digits are those of the code |
| RoomToken.AllFormsAgree | apps/room/src/lib/utils/token.ts:153-190 | each such name made of identifier characters, alone or in a room link, resolves to the same pair |
| RoomToken.UsualForms | apps/room/src/lib/utils/token.ts:153-190 | dashed code, bare digits, and the token in any letter case are such names |
| RoomToken.BlanksDoNotMatter | apps/room/src/lib/utils/token.ts:158-158 | blanks around the input do not matter |
| ChatHistory.ChatStore.MergeHistory | apps/room/src/lib/stores/chat.ts:76-104 | the store becomes the sorted store plus the messages with new ids, or stays untouched when there are none |
| ChatHistory.ChatStore.AddMessage | apps/room/src/lib/stores/chat.ts:48-69 | a message with a known id is ignored, an older one is sorted in, any other is appended |
| ChatHistory.Convergence | apps/room/src/lib/stores/chat.ts:76-104 | peers that merged the same messages, in any order and any batching, show the same list |
| ChatHistory.MergeCommutesIff | apps/room/src/lib/stores/chat.ts:76-104 | two batches commute if and only if they agree on the ids that are new to the store |
| ChatHistory.MergeIdempotent | apps/room/src/lib/stores/chat.ts:76-104 | merging a batch twice is merging it once |
| ChatHistory.MergeAssociative | apps/room/src/lib/stores/chat.ts:76-104 | merging a merged list is merging its parts |
| ChatHistory.MixedOrder | apps/room/src/lib/stores/chat.ts:48-104 | live messages and merges in any mix keep times in order and ids unique, and lose nothing |
| ChatHistory.MergeRestoresOrder | apps/room/src/lib/stores/chat.ts:76-104 | after any mix, a merge that brings something new restores the order by time and id |
| Chunking.ChunksMakeFile | apps/room/src/lib/transfer/chunking.ts:29-54 | the chunks of a file concatenate to it, for every size including zero |
| Chunking.ChunkSizes | apps/room/src/lib/transfer/chunking.ts:29-54 | every chunk but the last is full, and none is empty unless the file is |
| Chunking.WriteBytes | apps/room/src/lib/transfer/chunking.ts:74-81 | bytes are written in place at an offset and nowhere else |
| Chunking.CreateFileChunkPacket | apps/room/src/lib/transfer/chunking.ts:60-87 | the buffer that is filled in place is the frame of the specification |
| Chunking.FramingRoundTripIff | apps/room/src/lib/transfer/chunking.ts:60-129 | parsing a frame gives the chunk back if and only if the id fits its field without blanks at the ends and both numbers fit 32 bits |
| FileTransfer.FileReceiver.HandleFileMeta | apps/room/src/lib/transfer/receiver.ts:384-418 | an offer is recorded with nothing received, and accepted at once when the file was asked for |
| FileTransfer.FileReceiver.AcceptWithBlob | apps/room/src/lib/transfer/receiver.ts:225-253 | an offer within the memory limit starts receiving with an empty buffer; a larger one fails |
| FileTransfer.FileReceiver.HandleBinaryChunk | apps/room/src/lib/transfer/receiver.ts:259-296 | the payload is appended and counted while receiving, and the last chunk finalizes |
| FileTransfer.FileReceiver.FinalizeTransfer | apps/room/src/lib/transfer/receiver.ts:301-354 | the buffer becomes the blob, once |
| FileTransfer.FileSender.StartStreamToPeer | apps/room/src/lib/transfer/sender.ts:250-342 | an undisturbed stream, also one that starts again after a failure, puts every frame in order and then the completion message into the channel, and adds the size of the file to the bytes sent |
| FileTransfer.NothingLost | apps/room/src/lib/transfer/sender.ts:268-321 | for a transfer id the frame carries, under every interleaving, received bytes, payloads under way and unsent rest make up the file |
| FileTransfer.CompletedHoldsFileIff | apps/room/src/lib/transfer/receiver.ts:259-354 | a transfer marked completed holds exactly the sent bytes if and only if the frame carries its id or the file is empty |
| FileTransfer.DrainedIsCompleted | apps/room/src/lib/transfer/sender.ts:305-321 | once the sender is done and the channel has drained, the receiver has completed the transfer |
| TransferLimits.LargeFileStaysOut | apps/room/src/lib/transfer/receiver.ts:225-253 | a file above the memory limit is never marked receiving or completed and never answered with `file-ready`, in any interleaving |
| TransferLimits.SmallFileNeverFails | apps/room/src/lib/transfer/receiver.ts:225-253 | a file within the limit is never marked failed at the receiver, in any interleaving |
| TransferLimits.UndisturbedArrives | apps/room/src/lib/transfer/receiver.ts:225-354 | a file within the limit, for a carried id, ends completed with its bytes as the blob when offer, answer, stream and deliveries go undisturbed |

## Left out

- Machine integers: counters, timestamps and durations are unbounded, so saturating multiplication and wrap-around at the limits of `u64`, `i64` and `u32` are not modelled; the 32-bit words of the token cipher and the 32-bit fields of the frame are.
- Rounding of the flood bucket's `f64` tokens.
- Pruning of the connection limiter is not invisible (a pruned key loses its backoff level), so the reference of `ConnectionHistory` knows of sweeps too; the `retry_after` reported while blocked is, as in the code, that of the old deadline.
- Index entries of rooms that are gone: `RoomIndex` shows there are none when operations are atomic. Interleaved, a rotation of a room that is removed meanwhile can leave one behind, which leads nowhere because a join refuses a code whose room is not in the map; `RotationLaws` speaks of live rooms only.
- The lock map of rotations in the sequential model: a rotation of an unknown id leaves a lock behind, which nothing observes there.
- CodeRotation.Step: the generator is one atomic draw of a code that is new to the run, not a sequence of map lookups; a sweep reads the clock when it takes a room, not once for all rooms before it looks at the first.
- `tick_auto_rotations` is modelled one candidate room at a time, and the periodic tasks themselves are not.
- The signaling handlers carried out in place are create, join, kick, transfer, detonate and disconnect; relay, rekey, lock, moderation, ticks and the HTTP routes are modelled on values in `Gateway` only, which leaves their order of sends uncaptured.
- SignalingServer.Server.JoinRoom: the join limiter's verdict and the parsed room code are parameters, and the calls that record a failed or successful join are not modelled; the limiter itself is, in `JoinLimiting`.
- Rooms.RoomState.RekeyByOwner: the salt is not modelled, nor is it anywhere else.
- RoomManagement.RoomManager.RekeyRoom: the salt is not modelled here either.
- The separate set-password message, which ends in the same operation as a rekey, and the messages about TURN.
- Announcements.EverythingIsAnnounced: moderation notices are not covered, nor is an extension, which the server does not announce.
- TokenMixing.TagSeparates: how far tags of values that differ in several bytes differ is not claimed.
- The wording of error messages, logging, salts, password hashing, HMAC rate keys, JSON field aliases, Axum routing and configuration parsing.
- Sessions.PeerSessionRegistry.SendToPeer: a send into a channel whose receiver is gone reports failure in the source; channels are always open here.
- Sessions.PeerSessionRegistry.Broadcast: for the same reason its count is that of all channels served, where the source counts the sends that succeed; the order of service is left open.
- Strings are sequences of code units, and lower-casing and digits are those of ASCII.
- Chunking.CreateFileChunkPacket: transfer ids are ASCII, as the frame's layout says they are; a multi-byte id, which the encoder would let run over its field, is not modelled.
- Chunking.FramingRoundTripIff: ASCII ids only, for the same reason.
- FileTransfer.FileReceiver.HandleBinaryChunk: the writes of the file-system mode, and their failures, are not modelled.
- File transfer: the theorems are about one transfer to one recipient with at most one accept; cancellation, a repeated accept or offer for one id, a stream restarted after a failed one, progress percentages and object URLs are outside them.
- `addSystemMessage` appends without sorting and is not part of the ordering theorems.
- The sort of the chat store is specified by insertion in the store's order; any stable sort gives the same list because equal time and id never meet.
- TURN issuance, bandwidth and monthly governor: simpler copies of the window argument.
- Rekeying in the client, WebRTC negotiation, history-sync timers, language and code heuristics, export, styling and the user interface.
