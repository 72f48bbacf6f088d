# Verified model of the BASS host

BASS lets a phone or a PC open and start a car through a Raspberry Pi that recognizes faces. This
project models the parts of it that must stay right whatever is lost, delayed, retried, crashed or
raced, and proves what they promise.

Every component is modelled the same way: small step functions over a state value, an invariant, and
theorems over every run of steps in every interleaving; and, where the program is an object whose
methods change fields, a class with those fields whose methods are proved to make exactly those steps.
What a step achieves is stated beside that, in the fields a caller can see (the theorems named
`...Exactly`, and those of BleProgress, SecurityEffects, EnrollmentAuthority, RecoveryCards, ScanOutcomes
and ButtonHolds), so that it does not rest on how the step is written.
Code under one lock is one step, an SQL transaction is all or nothing, hashes are injective (so a
token stands for its hash), random tokens and UUIDs are fresh values, and a crash loses memory but not
files or committed rows. Where the program reads the clock before it takes its lock, readings are served
in any order; how far one lies behind an earlier served one is the *skew*, a parameter. What a component cannot decide - whether a
write, a delivery, a callback or a save works - comes in as a parameter, so every theorem holds for all
outcomes.

| file | component |
|---|---|
| BleProtocol, BlePeer, BleProgress, BleGateway, PendingWrites | the BLE byte tunnel: framing, one peer under its four actors, what its reads and rounds achieve, the gateway's tables, deferred GATT writes |
| DeveloperReset | the crash-aware product reset (module ProductReset) |
| SecuritySchema, SecurityState, SecurityStore, SecurityEffects | the shared database: triggers, what every operation keeps, the operations, what they mean for who is signed in and may do what |
| PinPolicy | the PIN lockout counter |
| EnrollmentRequests, EnrollmentAuthority | durable enrollment receipts, and when they may go on |
| CommissioningStore, HostLifecycle, Commissioning, RecoveryCards, CommissioningRefinement | request replay, owner recovery around a running product, the client-host commissioning protocol, the recovery card it hands over, and the database as its host |
| Actuation, ScanSessions, ScanOutcomes, Esp32Link | lock and engine state, scan sessions and what becomes of them, the controller handshake |
| HardwareEvents, ButtonHolds, RequestLimits, HttpResponse, EmbeddingFormat | button and power, rate limits, incremental HTTP parsing, the template codec |
| OrderedKeys, Outcomes | shared helpers |

## Results that need a condition

Several expectations turn out to hold only under a condition that the code leaves to chance. Each is
proved exactly, as an if-and-only-if, with a case that shows the failure happens:

- The triggers keep the role topology for every single-row statement on the columns they guard except
  one: inserting a user row under an administrator's leftover security row. Enforced foreign keys rule it
  out, and without them a delete and an insert break the topology (`TriggersKeepTopologyExactly`,
  `EnforcedKeysKeepTopology`, `UnenforcedKeysBreakTopology`).
- "Engine on implies unlocked" fails exactly for a lock row that was stored by a write that then raised
  (`EngineOnlyUnlockedExactly`); unlock, start and such a lock reach it from boot
  (`AmbiguousLockIsReachable`).
- A relock timer that fires is spent whatever comes of it, and leaves the car unlocked without a timer
  exactly when it fires in maintenance, a command is not sent or the row is not stored
  (`RelockFiringDropsTimerExactly`, `DroppedRelockIsReachable`); likewise a stop timer and an undelivered
  second unlock (`StopFiringDropsTimerExactly`, `UndeliveredUnlockDropsTimerExactly`).
- The uplink byte counter of a poisoned peer can go to -1 (`PoisonedCounterGoesNegative`); it is exact for
  every healthy peer.
- An active press is never among the finished ones, except when the same id is pressed down again after
  its lease ran out unnoticed; such a press cannot be released (`PressIsFreshExactly`,
  `RepressedButtonSticks`). With the deployed lease of 2 s, presses at 0 s and 3 s reach it
  (`RepressIsReachable`).
- Nothing the PC client sent is lost, exactly as long as it does not retry a request whose first save
  failed (`SendsAreDurableExactly`, `UnsavedRetryStrandsADevice`).
- An HTTP response parses the same however it is chunked exactly when its header block ends at offset
  16381 or before (`PrefixesIncompleteExactly`, `ChunkingMattersPast16381`); for each of the offsets
  16382 to 16384 a response is given (`LateHeadersAreAccepted`).
- The limiter and the PIN lockout read the clock before their locks. With readings out of order by up to
  d seconds, no interval of 60 - d seconds holds more than the maximum of a key's admitted times, and no
  longer interval can be promised (`IntervalsAreBounded`, `IntervalsExactly`); the told wait is at most
  61 + d seconds and can exceed 61 (`WaitsAreBounded`, `WaitsCanExceed61`). In T seconds at most
  5 (T/60 + 1) + 4 ((T + d)/60 - T/60) wrong PINs are compared, which is attained for every T and d, so
  the 5 (T/60 + 1) that was meant holds exactly when d does not carry T into a further minute
  (`WrongPinsAreBounded`, `BoundIsAttained`, `MeantBoundExactly`); five wrong PINs read at 10, 10, 10, 10
  and 9 and five more at 69 put nine into 59 seconds (`SkewLetsNineThrough`).
- A request that the PC client discarded leaves nothing on the host, exactly as long as the host does not
  commit an attempt of it after the refusal. Only an attempt that read the clock before the refusal did, and
  then waited longer for the lock, can do that, at the end of an invite (`RefusalsHoldExactly`,
  `RevivedWasOvertaken`, `DiscardedRequestsLeaveNothing`); readings 10 and 9 of an invite that ends at 10
  leave a device the client does not know (`OvertakenRequestPairs`).
- A journal write that fails before the reset began can leave a request only memory knows, and a
  restart forgets it; no receipt can exist for it (`UnsavedRequestIsHarmless`).

## Assumptions worth knowing

- A scan has one worker thread, and the thread makes one grant attempt: the `worker` flag of a session is
  that thread, and `GrantsAreSingle` rests on it.
- While a hardware grant waits for the controller it holds the actuation lock. The link, the wire, the
  controller, a raised cancel event and a request for maintenance go on; everything that needs the lock
  waits for `Settle`.
- `FaultFreeRunsAgree` speaks of runs without a fault. Every shutdown, and a resume outside maintenance,
  counts as one: both leave commands or timers behind that the state no longer shows.
- The rate limiter forgets the key that it evicts, so its bounds are about the times a key was admitted
  since it last entered the table.

## Model

| member | source | states |
|---|---|---|
| BleProtocol.ParseInvertsEncode | wireless/ble_protocol.py:53-87 | every client frame that fits the MTU is parsed back from its encoding, and nothing else parses to it |
| BleProtocol.DecodeInvertsEncode | wireless/ble_protocol.py:90-106 | the client reads every server frame as the frame the host wrote |
| BleProtocol.WriteTls | wireless/ble_client.py:102-105 | the chunks written carry exactly the payload, in order, none over the capacity |
| BlePeer.RelayFidelity | wireless/ble_gateway.py:275-290 | in every interleaving, for a healthy peer: sent, unsent part of the chunk in flight and queue are the accepted bytes, delivered and buffered are the received ones, the counter is exact and both buffers stay within 32 KiB |
| BlePeer.GracefulClose | wireless/ble_gateway.py:419-440 | once CLOSED was returned every accepted byte went upstream, EOF was seen and every received byte reached the client |
| BlePeer.FrameLanguage | wireless/ble_gateway.py:116-154 | as long as nothing is read after CLOSED (the gateway drops the peer with it), the frames of a generation are a prefix of WAIT* OPEN_OK (WAIT or DATA)* CLOSED, or such a prefix followed only by ERROR |
| BlePeer.DeliveredIsRead | wireless/ble_gateway.py:116-154 | the DATA frames returned carry exactly the delivered bytes |
| BlePeer.PoisonedCounter | wireless/ble_gateway.py:442-478 | after poisoning the byte counter is never positive |
| BlePeer.PoisonedCounterGoesNegative | wireless/ble_gateway.py:349-350 | a writer that settles its chunk after poisoning takes the counter to -1 |
| BlePeer.NextKeeps | wireless/ble_gateway.py:331-417 | every step of the callbacks, connector, writer and reader keeps the peer invariant |
| BleProgress.ReadAnswersExactly | wireless/ble_gateway.py:132-147 | a healthy peer with no control frame waiting answers DATA iff bytes are buffered - the first min(buffered, mtu - 4, 511), and exactly those leave the buffer - CLOSED iff both directions have ended and that was not reported, and WAIT otherwise |
| BleProgress.ReadBeforeData | wireless/ble_gateway.py:126-134 | a pending OPEN_OK comes before data, and a failed or disconnected peer answers its error for good |
| BleProgress.ReadsEmptyTheBuffer | wireless/ble_gateway.py:135-147 | as many reads as there are buffered bytes hand over all of them in order, whatever room each has, and one more has reported CLOSED when both directions have ended |
| BleProgress.WriterSends | wireless/ble_gateway.py:333-352 | one round of the writer sends exactly the next payload and takes its bytes off the counter |
| BleProgress.ReaderStores | wireless/ble_gateway.py:379-410 | one round of the reader stores what upstream sent behind what is buffered |
| BleProgress.ClosedExchangeEnds | wireless/ble_gateway.py:292-440 | any reachable open peer with idle workers, once closed, is brought to CLOSED by the workers and enough reads, with everything accepted sent and everything received delivered |
| BleProgress.PoisonExactly | wireless/ble_gateway.py:459-478 | the first failure of a live peer is kept, closes upstream and empties every buffer; a failed or disconnected peer is left as it is |
| BleProgress.WriterFailurePoisons | wireless/ble_gateway.py:353-362 | a writer that meets an error fails the peer with its code and leaves |
| BleProgress.ReaderFailurePoisons | wireless/ble_gateway.py:408-417 | so does a reader, unless the client has closed: then it only leaves |
| BleProgress.DataExactly | wireless/ble_gateway.py:275-290 | data outside an open exchange fails it; within one it is queued exactly while there is room |
| BleProgress.CloseExactly | wireless/ble_gateway.py:292-306 | so does a close; within an open exchange it is queued behind the data |
| BleProgress.FailedPeerIsLeftAlone | wireless/ble_gateway.py:126-134 | a failed peer takes nothing more and answers its first error |
| BleProgress.WholeExchange | wireless/ble_gateway.py:197-440 | from a fresh peer a payload reaches upstream, an answer reaches the client, and the last frame read is CLOSED |
| BleGateway.Peer.Step | wireless/ble_gateway.py:331-417 | one step of any actor on the peer record is the step of the model |
| BleGateway.Peer.ReadFrame | wireless/ble_gateway.py:116-154 | a read is the modelled one, whose answer and effect BleProgress.ReadAnswersExactly and ReadBeforeData state: pending frames and errors first, then buffered bytes, then CLOSED once, else WAIT |
| BleGateway.Peer.WriteData | wireless/ble_gateway.py:275-290 | data is queued, refused for want of room, or poisons the peer |
| BleGateway.Peer.Poison | wireless/ble_gateway.py:459-478 | the first error of a live peer wipes its buffers and is kept |
| BleGateway.Peer.Terminate | wireless/ble_gateway.py:442-457 | a terminated peer is disconnected and holds no data |
| BleGateway.BleTunnelGateway.OpenTunnel | wireless/ble_gateway.py:197-232 | a fresh device gets a new generation, a fifth one is rejected as busy, a second OPEN poisons; the tables stay disjoint and at most four peers exist |
| BleGateway.BleTunnelGateway.WriteFrame | wireless/ble_gateway.py:100-114 | every frame or violation has its one effect, and only backpressure asks for a retry |
| BleGateway.BleTunnelGateway.WriteData | wireless/ble_gateway.py:275-290 | data to an unknown device rejects it, otherwise it is the peer's own step |
| BleGateway.BleTunnelGateway.RequestClose | wireless/ble_gateway.py:292-306 | CLOSE is the peer's own step or rejects an unknown device |
| BleGateway.BleTunnelGateway.RejectOrPoison | wireless/ble_gateway.py:316-323 | a violation poisons a known peer and rejects an unknown device |
| BleGateway.BleTunnelGateway.ReadFrame | wireless/ble_gateway.py:116-154 | a read returns the peer's frame as those two state it, an error for a rejected or unknown device, and CLOSED only from a drained peer, which is then dropped |
| BleGateway.BleTunnelGateway.Disconnect | wireless/ble_gateway.py:156-161 | disconnecting forgets the device in both tables and terminates its peer |
| BleGateway.BleTunnelGateway.PoisonIfGeneration | wireless/ble_gateway.py:168-177 | a late timeout poisons only the generation it was meant for |
| BleGateway.BleTunnelGateway.Close | wireless/ble_gateway.py:179-195 | closing terminates every peer and empties both tables |
| BleGateway.ReadReportsClosed | wireless/ble_gateway.py:116-154 | a read that returns CLOSED leaves both directions drained |
| PendingWrites.EveryWriteIsAnsweredOnce | wireless/ble_gateway.py:729-787 | every write is answered or is its device's one pending write with an attempt scheduled; the gateway took just the writes answered as done, once each and in order |
| PendingWrites.AnswersAreFinal | wireless/ble_gateway.py:747-782 | an answer is never taken back or changed by anything later |
| PendingWrites.NeverAcrossConnections | wireless/ble_gateway.py:760-767 | a write that was asked while its device had a connection is never applied to another one; a write asked without one is not bound |
| PendingWrites.RequestExactly | wireless/ble_gateway.py:729-758 | a write to a device with one pending is refused at once; otherwise it is tried on the present connection, and only a full buffer leaves it waiting, for ten seconds |
| PendingWrites.AttemptExactly | wireless/ble_gateway.py:760-782 | an attempt ends the write unless the buffer is full before its deadline: a replaced connection, an error and a full buffer at the deadline fail it, and only the last poisons its connection |
| PendingWrites.WritesTimeOutExactly | wireless/ble_gateway.py:747-782 | in every run a waiting write asked for at t is kept by a full buffer before t + 10 s and answered as timed out, its connection poisoned, from then on |
| PendingWrites.CancelExactly | wireless/ble_gateway.py:784-787 | a disconnect or stop fails exactly the device's pending write |
| PendingWrites.PendingTable.CancelPendingWrite | wireless/ble_gateway.py:784-787 | a disconnect or shutdown answers the pending write and drops it |
| PendingWrites.PendingTable.TryWrite | wireless/ble_gateway.py:760-782 | one attempt settles, defers or ignores the write as the model says, poisoning only after the deadline |
| PendingWrites.PendingTable.WriteValue | wireless/ble_gateway.py:729-782 | a second write is refused at once, a first one is attempted at once |
| ProductReset.ResetsAtMostOnce | wireless/developer_reset.py:161-286 | over any crashes, failed or ambiguous effects and retries the generation counts the receipts, each request has one, and an unacknowledged receipt keeps maintenance on and startup refused |
| ProductReset.CallsResetOnce | wireless/developer_reset.py:161-286 | one call resets at most its own request, once, and can return only its durable receipt |
| ProductReset.WipedExactly | wireless/developer_reset.py:222-265 | one call wipes the database iff it was confirmed, reached its own uncommitted request, drain, both journal entries and backup worked, and the transaction was applied; the wipe opens the next generation under its receipt |
| ProductReset.NoBackupNoWipe | wireless/developer_reset.py:222-286 | when the drain, a journal entry or the backup fails the database is unchanged and no receipt returned; if the lookup and save that follow work the call raises with the gate shut and the request left as failed |
| ProductReset.ReturnsExactly | wireless/developer_reset.py:222-322 | a call that reached its request returns a receipt iff the wipe was applied, its commit became known even where the report was lost, and reload and last save worked |
| ProductReset.CommittedRetries | wireless/developer_reset.py:288-333 | retrying a committed request changes no data and returns its receipt iff reload and last save work; until then the gate stays shut |
| ProductReset.RecoveryIsTotal | wireless/developer_reset.py:288-333 | from every reachable state one failure-free call of the active request returns its receipt and ends maintenance |
| ProductReset.OthersAreRefused | wireless/developer_reset.py:170-220 | until then every other request is refused without effect, and startup is refused when the file names the request |
| ProductReset.UnsavedRequestIsHarmless | wireless/developer_reset.py:28-59 | a request only memory knows has no receipt and a restart forgets it |
| ProductReset.DeveloperReset.Execute | wireless/developer_reset.py:161-286 | the service makes exactly the modelled call, phase by phase; what that call may do to the database and answer is stated by WipedExactly, NoBackupNoWipe, ReturnsExactly and CommittedRetries |
| ProductReset.DeveloperReset.FinishCommitted | wireless/developer_reset.py:288-322 | finishing reloads, saves and opens the gate as the model says |
| ProductReset.DeveloperReset.RecoverDatabaseReceipt | wireless/developer_reset.py:324-333 | an ambiguous commit is found again by its database receipt |
| ProductReset.DeveloperReset.FailPrecommit | wireless/developer_reset.py:335-353 | a failure before the commit is journalled and keeps the gate shut |
| ProductReset.DeveloperReset.PersistJournal | wireless/developer_reset.py:430-445 | the file takes the journal exactly when the write was applied |
| SecuritySchema.TriggersKeepTopologyExactly | wireless/security_schema.py:171-444 | a successful single-row statement keeps the role topology iff it does not revive a leftover administrator row, and never takes away the last active administrator |
| SecuritySchema.EnforcedKeysKeepTopology | wireless/security_schema.py:187-444 | with foreign keys enforced no run of such statements breaks the topology |
| SecuritySchema.UnenforcedKeysBreakTopology | wireless/security_schema.py:339-398 | without them a sound database is broken by a delete and an insert |
| SecuritySchema.UserStatementKeeps | wireless/security_schema.py:171-185 | an update of a user row, with its identity trigger, keeps topology and last administrator |
| SecuritySchema.SecurityStatementKeeps | wireless/security_schema.py:187-238 | an insert or update of a security row keeps them |
| SecuritySchema.DeleteStatementKeeps | wireless/security_schema.py:339-444 | a delete of a user or security row keeps them |
| SecuritySchema.PutLifecycleKeeps | wireless/security_schema.py:268-316 | a claimed lifecycle row is accepted only over a sound topology |
| SecuritySchema.InsertUserExactly | wireless/security_schema.py:240-266 | exactly when inserting a user row, which no trigger watches, keeps the topology |
| SecurityState.VersionFreezesTheAccount | wireless/security_schema.py:171-185 | an auth_version seen twice in a generation means role, standing, access and template did not change in between |
| SecurityState.UserChangedKeeps | db_api.py:159-202 | changing a user row through the triggers leaves only current grants |
| SecurityState.RoleAssignedKeeps | wireless/security.py:775-859 | a role change keeps topology, current grants and every bound |
| SecurityState.PinChangedKeeps | wireless/security.py:861-905 | a PIN change leaves no grant or live device of the account |
| SecurityState.RecoveredKeeps | wireless/commissioning.py:216-246 | owner recovery keeps all invariants |
| SecurityState.PinChangedRekeys | wireless/security.py:882-905 | after a PIN change a check of the account matches the new PIN and no other at every reading, its version moved by one, and its devices, grants and invites are gone |
| SecurityState.RecoveredRekeys | wireless/commissioning.py:216-246 | after a recovery so it is for the owner, with exactly the new device and the new recovery secret, while every other account keeps its row |
| SecurityState.OwnedKeeps | wireless/commissioning.py:123-154 | claiming an unclaimed product establishes the topology |
| SecurityState.WipedKeeps | wireless/commissioning.py:294-336 | a product reset leaves a sound, vacant database of the next generation |
| SecurityState.RotatedKeeps | wireless/host_identity.py:41-47 | rotating the host identity keeps all invariants |
| SecurityState.PrunedKeeps | wireless/security.py:1432-1443 | pruning keeps all invariants |
| SecurityState.IssueKeeps | wireless/security.py:1096-1140 | a new current grant within the limit of 32 keeps the grant table |
| SecurityState.JoinedKeeps | wireless/security.py:624-637 | a new device within the limit of ten keeps the device table |
| SecurityStore.RoleChangePasses | wireless/security.py:829-838 | after the other demotions the target's role change passes every trigger |
| SecurityStore.DemotionPasses | wireless/security.py:812-828 | demoting any other regular administrator passes every trigger |
| SecurityStore.RolesAfterChange | wireless/security.py:775-859 | naming an administrator leaves exactly the owner and the target, removing one removes only it |
| SecurityStore.ApplyRole | wireless/security.py:805-844 | the loops of guarded updates and deletes give the declared role assignment and never abort |
| SecurityStore.DropRoleCredentials | wireless/security.py:840-849 | the changed users lose their grants and the invites they issued, and nobody else does |
| SecurityStore.StaleInvitesSurvive | wireless/security_schema.py:171-185 | the identity trigger takes a changed issuer's grants but not its invites, which pairing then refuses |
| SecurityStore.StaleInvitesStayRefused | wireless/security.py:585-603 | an invite whose issuer's version moved on is refused for the rest of the generation |
| SecurityStore.Prune | wireless/security.py:1432-1443 | the statements and loop remove exactly what has expired |
| SecurityStore.DeleteDeviceRows | wireless/security.py:1419-1430 | device rows go one at a time with their grants and invites and never hit a foreign key |
| SecurityStore.MakeMobileSlot | wireless/security.py:1445-1469 | room is made by just enough of the first inactive devices by creation and id, or refused iff there are too few |
| SecurityStore.SecurityStore.LocalLogin | wireless/security.py:232-334 | a sign-in replaces the account's local sessions; a failed one is committed with its counter |
| SecurityStore.SecurityStore.RevokeLocal | wireless/security.py:406-441 | exactly a live local session with the token is ended, with its grants and invites |
| SecurityStore.SecurityStore.CreateUser | wireless/security.py:443-484 | succeeds iff a current administrator names a free name, and adds an account without a role |
| SecurityStore.SecurityStore.IssueInvite | wireless/security.py:486-531 | succeeds iff allowed, and leaves one invite for the target |
| SecurityStore.SecurityStore.Pair | wireless/security.py:572-671 | under a live invite and the right PIN creates one device within the limit, counts a wrong PIN, or changes nothing |
| SecurityStore.SecurityStore.SetRole | wireless/security.py:775-859 | succeeds iff the owner targets another active account, never aborts on a trigger, and assigns the role |
| SecurityStore.SecurityStore.SetPin | wireless/security.py:861-905 | succeeds iff allowed; then the new PIN, and no other, signs the account in, its role is kept, no device of it is active, no grant or invite of or for it is left, and nobody else is touched |
| SecurityStore.SecurityStore.RevokeDevice | wireless/security.py:907-945 | succeeds iff allowed, and disables just that device |
| SecurityStore.SecurityStore.ConfirmSession | wireless/security.py:975-1002 | only the PIN counter of the signed-in account moves, by one tallied check |
| SecurityStore.SecurityStore.Authorize | wireless/security.py:1004-1094 | a grant is issued iff the identity is current, the action allowed, the PIN right and the device has room; a refused PIN is counted, a grant refused for the limit is rolled back |
| SecurityStore.SecurityStore.IssueGrant | wireless/security.py:1096-1140 | the grant replaces one of the same action and target and is refused iff 32 others are live |
| SecurityStore.SecurityStore.ConsumeGrant | wireless/security.py:1164-1230 | succeeds iff the grant was issued, after a check that matched the account's PIN, to this device, user, action and target under the present version, at a reading later than 30 s before this one, and never used, with the account unchanged since |
| SecurityStore.SecurityStore.Claim | wireless/commissioning.py:107-179 | succeeds iff the product is unclaimed, the secret right and the gate open; the new user becomes the owner |
| SecurityStore.SecurityStore.Recover | wireless/commissioning.py:181-267 | succeeds iff the secret is right and a window was proved; then the new PIN alone signs the owner in, the new device is the only one, no grant or invite is left, and the new secret is the recovery secret |
| SecurityStore.SecurityStore.ResetProduct | wireless/commissioning.py:294-336 | leaves a vacant product of the next generation |
| SecurityStore.SecurityStore.RecoverAdmin | wireless/security.py:336-404 | on a legacy product the one named user becomes an administrator whom the new PIN alone signs in, with no active device, grant or invite left, and nobody else is touched |
| SecurityStore.SecurityStore.DeleteUserAccount | db_api.py:159-178 | succeeds iff the account is active and neither owner nor last administrator |
| SecurityStore.SecurityStore.SetUserAccess | db_api.py:187-202 | a changed access flag moves the version and takes the grants, an unchanged one does neither |
| SecurityStore.SecurityStore.RotateHostIdentity | wireless/host_identity.py:41-47 | every device, invite and grant is void |
| SecurityStore.ClaimPasses | wireless/commissioning.py:137-160 | on an unclaimed product every statement of a claim passes |
| SecurityStore.RecoverPasses | wireless/commissioning.py:216-246 | on a claimed product every statement of a recovery passes and the owner is an active administrator |
| SecurityStore.AdminRecoveredRekeys | wireless/security.py:368-385 | after the recovery of an administrator its new PIN alone matches, its credentials are gone, and nobody else is touched |
| SecurityEffects.AuthorityExactly | wireless/security.py:1004-1060 | action by action, who may authorize it: administrators, the owner for roles and for whatever touches the owner, the account itself for its own operations, with face access for scans |
| SecurityEffects.SignInExactly | wireless/security.py:284-325 | a sign-in ends the account's earlier local sessions and no other device, opens one session that is good for exactly 900 s, and changes no account |
| SecurityEffects.GrantIsGoodExactly | wireless/security.py:1096-1140 | a grant is good for exactly 30 s, for its device, user, version, action and target alone, and replaces only one of the same action and target |
| SecurityEffects.GrantIsConsumable | wireless/security.py:1004-1230 | what was authorized passes every check of its consumption until the grant or the session ends |
| SecurityEffects.InviteIsGoodExactly | wireless/security.py:486-603 | an invite is good for exactly 300 s while the device it was issued from is signed in, and is the only one of its target |
| SecurityEffects.PairingExactly | wireless/security.py:572-671 | a pairing uses the invite up, signs the target in on one new device for good, and deletes only the target's own inactive devices, down to nine |
| SecurityEffects.NewPinSignsOut | wireless/security.py:1399-1417 | a new PIN ends every session of the account |
| SecurityEffects.NewPinKeepsOthers | wireless/security.py:1399-1417 | and nobody else notices |
| SecurityEffects.RecoverySignsOut | wireless/commissioning.py:181-267 | a recovery leaves exactly the owner signed in, on the new device |
| SecurityEffects.ClaimSignsIn | wireless/commissioning.py:107-179 | a claim signs exactly its user in, as owner and administrator, with the new PIN |
| SecurityEffects.ChangedIdentitySignsOut | wireless/security_schema.py:171-185 | a changed standing, access or face signs the account out with the grants by and for it, and nobody else |
| SecurityEffects.RevokedDeviceExactly | wireless/security.py:907-945 | a revoked device is signed out with its grants and invites, and nothing else changes |
| SecurityEffects.NobodyStays | wireless/host_identity.py:41-47 | after a new host identity or a wipe nobody is signed in; the one keeps every account, the other none |
| SecurityEffects.PruningExactly | wireless/security.py:1432-1443 | pruning signs nobody out and removes exactly what has expired |
| SecurityEffects.RoleChangeSignsOut | wireless/security.py:775-859 | a role change signs out exactly those whose role it changed, with the grants by and for them and their invites |
| PinPolicy.WrongPinsAreBounded | wireless/security_credentials.py:131-177 | between resets, with readings out of order by up to d, at most 5 (T/60 + 1) + 4 ((T + d)/60 - T/60) wrong PINs are compared in any T seconds, so never more than 5 ((T + d)/60 + 1) |
| PinPolicy.MeantBoundExactly | wireless/security_credentials.py:131-177 | all runs with skew d keep to 5 (T/60 + 1) in T seconds iff d does not carry T into a further minute |
| PinPolicy.SkewLetsNineThrough | wireless/security_credentials.py:160-177 | wrong PINs read at 10, 10, 10, 10, 9 and five at 69, all compared: nine of them within 59 seconds |
| SecurityStore.StoreBoundsWrongPins | wireless/security_credentials.py:131-177 | the same bound for the checks of login, pairing, session confirmation and authorization together, as the store tallies them in the order it serves them |
| PinPolicy.BoundIsAttained | wireless/security_credentials.py:150-177 | the bound is attained for every span and every skew |
| PinPolicy.CounterStaysInRange | wireless/security_credentials.py:160-177 | the stored counter stays in 0 to 4 |
| PinPolicy.LocksExactly | wireless/security_credentials.py:131-177 | after up to four wrong PINs the right one is accepted at once; the fifth refuses even the right one for exactly 60 s |
| EnrollmentRequests.EndedReceiptsAreFinal | wireless/enrollment_requests.py:161-181 | over any history of such steps an ended receipt never changes and every receipt answers the same |
| EnrollmentRequests.CompletedWasActive | wireless/enrollment_requests.py:144-159 | over such a history a completed receipt was accepted, then active, and nothing else before |
| EnrollmentRequests.EnrollmentRequestStore.EndedStaysEnded | wireless/enrollment_requests.py:161-181 | in every run of the store's operations, with any security operations between, an ended receipt never changes and every receipt answers the same |
| EnrollmentRequests.EnrollmentRequestStore.CompletedWasAccepted | wireless/enrollment_requests.py:144-230 | and a completed receipt was accepted, then active, and nothing else before |
| EnrollmentRequests.EnrollmentRequestStore.SecurityMoves | wireless/enrollment_requests.py:144-159 | whatever the security store does between two operations leaves receipts and history sound |
| EnrollmentRequests.EnrollmentRequestStore.Reset | wireless/commissioning.py:294-303 | a product reset deletes the receipts |
| EnrollmentRequests.UnexpiredAuthorityIsUnchanged | wireless/enrollment_requests.py:256-293 | equal generation and versions mean that neither account changed since the reservation |
| EnrollmentAuthority.AuthorityStandsExactly | wireless/enrollment_requests.py:256-294 | a receipt goes on iff the generation is its own, its device is the actor's, active and unexpired, both accounts are active and unchanged, and only the owner enrols the owner; otherwise it fails as expired, or for the owner |
| EnrollmentAuthority.ReservedMayComplete | wireless/enrollment_requests.py:32-115 | a reservation can go on from the instant it is made while its actor stays signed in |
| EnrollmentAuthority.LostDeviceExpires | wireless/enrollment_requests.py:256-294 | revoking the device, the end of its session, a new host identity and a reset each end the authority |
| EnrollmentAuthority.LostAccountExpires | wireless/enrollment_requests.py:256-294 | so do a new PIN of either account and the deletion of the target |
| EnrollmentRequests.EnrollmentRequestStore.Reserve | wireless/enrollment_requests.py:32-115 | consumes one grant for a new receipt; a replay returns the original response and consumes none |
| EnrollmentRequests.EnrollmentRequestStore.Activate | wireless/enrollment_requests.py:144-159 | activates an accepted receipt iff its authority still stands |
| EnrollmentRequests.EnrollmentRequestStore.Finalize | wireless/enrollment_requests.py:161-181 | ends a pending receipt and leaves an ended one alone |
| EnrollmentRequests.EnrollmentRequestStore.Complete | wireless/enrollment_requests.py:183-230 | the template is written exactly when the receipt becomes completed, with both accounts as they were at the reservation |
| EnrollmentRequests.EnrollmentRequestStore.InterruptPending | wireless/enrollment_requests.py:232-254 | every pending receipt is interrupted and no other is touched |
| CommissioningStore.CommissioningStore.Submit | wireless/request_receipts.py:41-83 | a repeated request is answered from its receipt, a reused id is refused, and a new one commits one device together with its receipt or leaves none |
| CommissioningStore.CommissioningStore.Reset | wireless/commissioning.py:304-307 | a reset wipes the receipts with the product |
| HostLifecycle.HostLifecycle.Admit | wireless/host_lifecycle.py:67-77 | the gate is closed for a new recovery iff its authority and window are proved and it holds no receipt |
| HostLifecycle.HostLifecycle.RecoverOwner | wireless/host_lifecycle.py:58-86 | only the unfinished request may go on; an admitted one commits iff the product drains and its secret is right; the gate reopens exactly when both the drain and the resumption worked, and otherwise stays closed for that request |
| CommissioningRefinement.SubmitIsProcess | wireless/commissioning.py:107-267 | a claim, recovery or pairing without a receipt is one step of the protocol host, with the same answer, up to invites that had ended |
| CommissioningRefinement.ReplayIsProcess | wireless/request_receipts.py:41-63 | a repeated request id is answered as the protocol host answers it |
| CommissioningRefinement.ResetIsReset | wireless/commissioning.py:294-336 | the product reset is the reset of the protocol host |
| CommissioningRefinement.HoldsExactly | wireless/security.py:578-603 | an invite is good at a reading iff its authority stands and its end and its session's lie after it |
| CommissioningRefinement.SubmitBeside | wireless/commissioning.py:107-267 | Submit and the protocol host, run side by side, stay the same host |
| Commissioning.AtMostOneDevicePerRequest | wireless/commissioning.py:107-267 | over any losses, retries and restarts the host creates at most one device for a request in a generation |
| Commissioning.PairedClientMatchesHost | wireless/pc_client.py:708-765 | a paired client's token, device and user are those the host committed for one of the client's own requests, and a card it holds is that entry's; that it holds it is RecoveryCards.CardsAreKept |
| Commissioning.DiscardedRequestsLeaveNothing | wireless/pc_client.py:664-707 | if no attempt of a refused request is overtaken by its refusal, a request the client discarded has no receipt and no device in the generation |
| Commissioning.RefusalsHoldExactly | wireless/security.py:567-603 | an event gives a refused request a receipt iff it commits another attempt of it |
| Commissioning.RevivedWasOvertaken | wireless/security.py:567-603 | that attempt pairs under an invite and read the clock before the refusal did |
| Commissioning.OvertakenRequestPairs | wireless/security.py:567-603 | readings 10 and 9 at an invite that ends at 10 leave a device for a request the client has discarded |
| Commissioning.DiscardIsForever | wireless/pc_client.py:697-707 | what is discarded stays discarded over any later events |
| Commissioning.SendsAreDurableExactly | wireless/pc_client.py:472-487 | every request sent is on the client's disk or settled there, and an event breaks this iff it retries an unsaved request |
| Commissioning.NothingSentIsLost | wireless/pc_client.py:427-487 | if every send was saved, each receipt the host holds for the client can be retried or is settled, and unless an attempt was overtaken not by a discard |
| Commissioning.UnsavedRetryStrandsADevice | wireless/pc_client.py:472-475 | a failed save, a retry and a restart leave a device the client does not know |
| Commissioning.RetryConverges | wireless/pc_client.py:478-487 | one retry whose answer arrives pairs the client, with the card of its request, if it has the committed PIN, and any other PIN changes nothing |
| RecoveryCards.AnswerExactly | wireless/pc_client.py:664-765 | a commit saves the device under the saved token and the chosen secret unless invited, a refused credential clears the request, any other answer leaves it; a raising save changes nothing in memory |
| RecoveryCards.ForgetExactly | wireless/pc_client.py:608-637 | a pairing is forgotten exactly when nothing is pending and no card is left, on disk and then in memory |
| RecoveryCards.CardsAreKept | wireless/pc_client.py:740-765 | in every run, in memory and on disk, a paired client holds exactly the secret committed with its pairing - the chosen one after a claim or recovery, none after an invite - until it was acknowledged, and none afterwards |
| RecoveryCards.OnlyAcknowledgingTakesTheCard | wireless/pc_client.py:593-606 | of all events only an acknowledgement takes a card out of memory, and while it is there the disk has it too |
| RecoveryCards.NewestCardRecovers | wireless/commissioning.py:181-246 | in every run the newest secret committed in the generation is good for a recovery at the host |
| RecoveryCards.RetryBringsTheCard | wireless/pc_client.py:478-487 | the undisturbed retry ends with the card of the request in memory and on disk |
| Commissioning.NextKeeps | wireless/request_receipts.py:41-83 | every event of client, channel, host and other clients, commits answered by an error included, keeps the protocol invariant |
| Commissioning.PcClient.Commission | wireless/pc_client.py:427-475 | the request is pending in memory even if its save failed, and may be sent only if saved |
| Commissioning.PcClient.Receive | wireless/pc_client.py:664-765 | a reply is saved before it is taken over in memory, with the effect that RecoveryCards.AnswerExactly states |
| Commissioning.PcClient.Forget | wireless/pc_client.py:608-637 | a pairing is forgotten only with no request pending and no card unacknowledged |
| Commissioning.PcClient.Acknowledge | wireless/pc_client.py:593-606 | the card leaves memory before the save |
| Actuation.EngineOnlyUnlockedExactly | car_face_auth/src/runtime_actuation.py:383-426 | an event breaks "engine on implies unlocked" iff it is an ambiguous lock |
| Actuation.EngineNeverOnWhileLocked | car_face_auth/src/runtime_actuation.py:68-162 | without ambiguous locks the engine flag implies unlocked in every run, faults included |
| Actuation.FaultFreeRunsAgree | car_face_auth/src/runtime_actuation.py:164-253 | without a fault lock state and engine flag equal the last delivered commands, and the relock the last unlock asked for and the stop the last start asked for are armed |
| Actuation.UnlockedCarsRelock | car_face_auth/src/runtime_actuation.py:439-523 | in every run without a fault, outside maintenance, if the last successful unlock among the events asked for a delay and the car is unlocked, delay and user are those, and with the engine off a relock is armed |
| Actuation.ArmingExactly | car_face_auth/src/runtime_actuation.py:428-469 | arming with a positive delay keeps the delay and user of the request even if the timer cannot start, and takes a fresh timer iff it can; otherwise it disarms |
| Actuation.UnlockExactly | car_face_auth/src/runtime_actuation.py:164-253 | an unlock succeeds iff its checks pass, its command is accepted and its row stored; it then names the owner and arms what was asked, and otherwise nobody becomes the owner |
| Actuation.StartExactly | car_face_auth/src/runtime_actuation.py:96-162 | a start succeeds iff its checks pass and its command is accepted; the engine then runs with its limit armed and the relock paused |
| Actuation.StopExactly | car_face_auth/src/runtime_actuation.py:68-162 | a stop succeeds iff its command is accepted; the engine is then off and the paused relock counts again if the car is unlocked |
| Actuation.LockExactly | car_face_auth/src/runtime_actuation.py:362-426 | a forced lock attempts both commands, is done iff both went out and the row is stored, and then leaves no owner, engine, timer or delay |
| Actuation.ResetExactly | car_face_auth/src/runtime_actuation.py:271-281 | a lost connection leaves no owner, engine, timer or delay whether or not its lock goes through |
| Actuation.MaintenanceExactly | car_face_auth/src/runtime_actuation.py:283-326 | entering maintenance leaves no timer and attempts both commands; it locks iff both go out and the row is stored |
| Actuation.InvalidateExactly | car_face_auth/src/runtime_actuation.py:350-360 | an invalidated authorization has no owner and a new generation, and nothing else changes |
| Actuation.RunningEngineStays | car_face_auth/src/runtime_actuation.py:96-120 | a start of a running engine changes nothing |
| Actuation.ResumeExactly | car_face_auth/src/runtime_actuation.py:328-335 | resuming leaves no owner, timer, delay or earlier decision |
| Actuation.ShutdownExactly | car_face_auth/src/runtime_actuation.py:337-348 | a shutdown closes the gate without timers and attempts its last lock iff there is hardware |
| Actuation.AmbiguousLockIsReachable | car_face_auth/src/runtime_actuation.py:383-426 | from boot, an unlock, a start and a lock whose row is stored by a raising write leave the engine on in a locked car |
| Actuation.RelockFiringDropsTimerExactly | car_face_auth/src/runtime_actuation.py:444-469 | a fired relock is spent, and leaves the car unlocked iff it was unlocked and it fires in maintenance, a command is not sent or the row is lost |
| Actuation.StopFiringDropsTimerExactly | car_face_auth/src/runtime_actuation.py:483-511 | a fired stop is spent, and leaves the engine flag on iff it was on and it fires in maintenance or STOP is not delivered |
| Actuation.UndeliveredUnlockDropsTimerExactly | car_face_auth/src/runtime_actuation.py:180-202 | an unlock that is not delivered drops the relock armed before it iff it gets as far as its command |
| Actuation.DroppedRelockIsReachable | car_face_auth/src/runtime_actuation.py:444-469 | from boot, an unlock and a relock whose LOCK is not sent leave the car unlocked with no relock |
| Actuation.LateTimersAreInert | car_face_auth/src/runtime_actuation.py:428-511 | in every run from boot, a timer that was armed and then superseded or cancelled changes nothing when it fires late, whatever happened since |
| Actuation.GenerationMovesExactly | car_face_auth/src/runtime_actuation.py:362-381 | the generation moves at exactly the revoking events - an accepted or reset grant, a lock attempt, an invalidation, a resume, a shutdown - and never back |
| Actuation.SameGenerationSameAuthority | car_face_auth/src/runtime_actuation.py:362-381 | an unmoved generation means exactly that no revoking event happened in between, and then no unlock, lock attempt, owner change or end of maintenance |
| Actuation.ScansBindToTheirGeneration | car_face_auth/src/runtime_actuation.py:88-94 | an unlock or start bound to a generation takes effect only if no event revoked it since |
| Actuation.OneUnlockPerGeneration | car_face_auth/src/runtime_actuation.py:164-253 | at most one unlock succeeds per generation value |
| Actuation.UnconfirmedUnlock | car_face_auth/src/runtime_actuation.py:188-202 | an unacknowledged hardware unlock grants nothing and attempts exactly STOP and LOCK in the same step, iff it got as far as asking |
| Actuation.UnconfirmedStart | car_face_auth/src/runtime_actuation.py:96-140 | so does an unacknowledged start |
| Actuation.RuntimeActuation.Unlock | car_face_auth/src/runtime_actuation.py:164-253 | every path of an unlock, with its timer, delivery, save and compensation, as UnlockExactly and ArmingExactly state it |
| Actuation.RuntimeActuation.SetIgnition | car_face_auth/src/runtime_actuation.py:68-162 | every path of a start or stop |
| Actuation.RuntimeActuation.ForceLock | car_face_auth/src/runtime_actuation.py:255-269 | a forced lock outside maintenance |
| Actuation.RuntimeActuation.ResetConnection | car_face_auth/src/runtime_actuation.py:271-281 | a connection reset marks locked, then attempts STOP and LOCK |
| Actuation.RuntimeActuation.DispatchLock | car_face_auth/src/runtime_actuation.py:383-426 | STOP and LOCK are both attempted and the row is written only if both went out |
| Actuation.RuntimeActuation.RelockIfCurrent | car_face_auth/src/runtime_actuation.py:444-469 | a relock timer acts only while it is the current one |
| Actuation.RuntimeActuation.StopIfCurrent | car_face_auth/src/runtime_actuation.py:483-511 | a stop timer acts only while it is the current one |
| Actuation.RuntimeActuation.EnterMaintenance | car_face_auth/src/runtime_actuation.py:283-326 | maintenance cancels timers and locks |
| Actuation.RuntimeActuation.ResumeAfterMaintenance | car_face_auth/src/runtime_actuation.py:328-335 | resuming opens a new generation, locked |
| Actuation.RuntimeActuation.Shutdown | car_face_auth/src/runtime_actuation.py:337-348 | shutdown closes the gate and locks if there is hardware |
| Actuation.RuntimeActuation.InvalidateAuthorization | car_face_auth/src/runtime_actuation.py:350-360 | invalidating an owner opens a new generation |
| ScanSessions.HardwareGrantsAgree | car_face_auth/src/pi_runtime.py:1229-1243 | in every run of runtime, link, wire and controller, each hardware session that acted had its own request, read on the connection it names, accepted by the controller, and no other session acted for it |
| ScanSessions.HardwareGrantsAreAcknowledged | car_face_auth/src/pi_runtime.py:1229-1243 | the end of a hardware grant counts iff the link confirms and the state is saved; then the controller has accepted the session's request on the connection still current and no cancellation was raised; without confirmation exactly STOP and LOCK are attempted |
| ScanSessions.HardwareAttemptsOnlyReset | car_face_auth/src/pi_runtime.py:1232-1243 | before its wait a hardware attempt never acts, and attempts STOP and LOCK iff the link refuses it, nothing if it was cancelled or not reached |
| ScanSessions.NoAuthorizationIsLost | car_face_auth/src/pi_runtime.py:1236-1243 | for every AUTHORIZED that reached the wire, by a write that returned or raised, the session acted, still waits, or failed, and it fails only in a step whose last command is LOCK |
| ScanSessions.CancelledNeverActs | car_face_auth/src/pi_runtime.py:2341-2386 | cancelled is absorbing and a session once cancelled never actuates afterwards, even if the controller is being asked |
| ScanSessions.GrantsAreSingle | car_face_auth/src/pi_runtime.py:1658-1788 | with one grant attempt per worker thread no session actuates twice, and only a session that did is reported as granted |
| ScanSessions.GrantsBindToTheRequest | car_face_auth/src/pi_runtime.py:1687-1695 | a session acts only if nothing revoked the generation its request saw: no event from elsewhere, no other unlock, no lock attempt |
| ScanSessions.NextKeeps | car_face_auth/src/pi_runtime.py:2061-2186 | every event keeps single actuation, the agreement with link and controller, and a drained runtime without attempts |
| ScanOutcomes.NewScanExactly | car_face_auth/src/pi_runtime.py:2061-2131 | a scan is taken on iff the runtime is open and running, nothing is active and its name and request are good, and then runs alone |
| ScanOutcomes.CancelExactly | car_face_auth/src/pi_runtime.py:2133-2183 | while no grant waits, cancelling a running session makes it cancelled and raises its event; nothing else changes |
| ScanOutcomes.CancelHolds | car_face_auth/src/pi_runtime.py:2133-2183 | in every run a running session so cancelled never acts and stays cancelled |
| ScanOutcomes.RaisedWhileWaiting | car_face_auth/src/pi_runtime.py:1245-1265 | a session raised while the controller is asked is not granted, and its wait ends in STOP and LOCK |
| ScanOutcomes.BlockedAttempt | car_face_auth/src/pi_runtime.py:1658-1700 | a cancelled or closed scan does nothing, a refused match or moved authority is denied without a command |
| ScanOutcomes.PlainUnlockExactly | car_face_auth/src/pi_runtime.py:1925-2026 | otherwise a plain scan unlocks, and is reported as granted, iff timer, command and save all work outside maintenance |
| ScanOutcomes.PlainStartExactly | car_face_auth/src/pi_runtime.py:1790-1923 | or starts the engine iff the car is unlocked for an owner and timer and command work |
| ScanOutcomes.HardwareWaitsExactly | car_face_auth/src/pi_runtime.py:1229-1243 | a scan for the controller waits for it iff it is not blocked and the link is idle on its connection and knows of no cancellation |
| ScanOutcomes.UndisturbedGrantActs | car_face_auth/src/pi_runtime.py:1229-1243 | undisturbed, it acts: the handshake runs, the command is sent and the session is granted |
| ScanOutcomes.ReleaseExactly | car_face_auth/src/pi_runtime.py:2451-2501 | a released worker leaves its session inactive, and cancelled if it was still running |
| ScanOutcomes.RemoveExactly | car_face_auth/src/pi_runtime.py:2555-2580 | a session may be dropped exactly when it is neither active nor waiting, and a closed runtime takes no other |
| ScanOutcomes.RevokeIgnitionExactly | car_face_auth/src/pi_runtime.py:2530-2550 | a revoked ignition cancels the active session iff it is a running ignition scan |
| ScanOutcomes.MaintenanceExactly | car_face_auth/src/pi_runtime.py:847-963 | a pause shuts new scans out, drains iff clean with no worker left, and only a drained runtime resumes |
| ScanSessions.ScanRuntime.GrantScan | car_face_auth/src/pi_runtime.py:1658-1788 | the grant makes exactly the modelled step, checking cancellation under the lock |
| ScanSessions.ScanRuntime.AskLink | car_face_auth/src/pi_runtime.py:1229-1243 | the callback answers no without a reset if a cancellation came first, resets if the link refuses, and otherwise waits |
| ScanSessions.ScanRuntime.SettleGrant | car_face_auth/src/pi_runtime.py:1236-1243 | the callback returns and the unlock or start around it completes as modelled |
| ScanSessions.ScanRuntime.Pause | car_face_auth/src/pi_runtime.py:847-857 | maintenance stops new sessions unless it has already drained |
| ScanSessions.ScanRuntime.Drain | car_face_auth/src/pi_runtime.py:912-932 | a runtime counts as drained only with no worker left and no error |
| ScanSessions.ScanRuntime.ResumeAfterMaintenance | car_face_auth/src/pi_runtime.py:939-963 | only a drained runtime resumes, and without its sessions |
| ScanSessions.ScanRuntime.NewSession | car_face_auth/src/pi_runtime.py:2061-2131 | a session opens only if none is busy and the runtime is neither closed nor paused |
| ScanSessions.ScanRuntime.Cancel | car_face_auth/src/pi_runtime.py:2133-2183 | only a running session becomes cancelled |
| ScanSessions.ScanRuntime.Finish | car_face_auth/src/pi_runtime.py:2341-2449 | a cancelled session keeps its state |
| ScanSessions.ScanRuntime.ReleaseSession | car_face_auth/src/pi_runtime.py:2451-2501 | a released worker leaves no running session behind |
| Esp32.GrantsAgree | car_face_auth/src/esp32_link.py:175-216 | an authorization that returns True names a request the controller started, on the connection still current, and each start is returned at most once, also when a write that reached the controller raised |
| Esp32.ReadIsFinal | car_face_auth/src/esp32_link.py:255-263 | a START_AUTH line is read once, so a request stays bound to the connection it was read from |
| Esp32.CancellationIsRemembered | car_face_auth/src/esp32_link.py:201-216 | an early cancellation refuses its request until another cancellation or connection |
| Esp32.HandshakeGrants | car_face_auth/src/esp32_link.py:168-216 | an idle link on the connection of the request the controller waits on grants it when nothing is lost or cancelled |
| Esp32.CancellationRefuses | car_face_auth/src/esp32_link.py:201-216 | a cancellation read on the current connection refuses its request and ends its wait without a grant |
| Esp32.LossRefuses | car_face_auth/src/esp32_link.py:156-166 | a lost connection fails what waits on it, and none of its requests is asked again |
| Esp32.NextKeeps | ESP32_Program/ReadMe.md:147-159 | every step of link, wire and controller keeps their agreement |
| Esp32.Esp32Link.BeginAuthorize | car_face_auth/src/esp32_link.py:175-190 | an authorization starts only for a current, uncancelled request |
| Esp32.Esp32Link.WriteReply | car_face_auth/src/esp32_link.py:168-173 | a write after a check that passed; one that raises returns False, whatever reached the controller |
| Esp32.Esp32Link.ReceiveResult | car_face_auth/src/esp32_link.py:201-216 | a result settles only the pending request it names on its connection |
| Esp32.Esp32Link.EndAuthorize | car_face_auth/src/esp32_link.py:190-199 | the pending request is cleared and its outcome returned |
| Esp32.Esp32Link.LoseConnection | car_face_auth/src/esp32_link.py:156-166 | losing the connection fails what is pending on it |
| HardwareEvents.LiveMeansOperational | wireless/hardware_events.py:69-143 | in every run a live press or open window means powered, no maintenance and no transition; one window at most, opened by a PressDown, PressKeepalives and a PressUp of one id in that run, unbroken for 3 s or 10 s; at most 32 finished presses |
| HardwareEvents.FailedTransitionAdmitsItsTarget | wireless/hardware_events.py:149-200 | after a failed power transition only its own target is admitted, and its success clears it |
| HardwareEvents.PressIsFreshExactly | wireless/hardware_events.py:69-87 | an event puts an active press among the finished ones iff it presses a lapsed id again |
| HardwareEvents.RepressedButtonSticks | wireless/hardware_events.py:99-110 | the release of such a press is answered as cancelled and leaves it pressed |
| HardwareEvents.RepressIsReachable | wireless/hardware_events.py:69-110 | with a lease of 2 s, pressing at 0 s and again at 3 s makes the press active, finished and impossible to release |
| HardwareEvents.RoundedIsClose | wireless/hardware_events.py:118-125 | the reported held time is a whole number of milliseconds within half a millisecond of the real one |
| ButtonHolds.HoldOpensExactly | wireless/hardware_events.py:69-127 | a hold kept up within the lease opens the recovery window from 10 s, the pairing window from 3 s, until the release plus its length, and no window below; it is remembered with what it did |
| ButtonHolds.HeldWindowAdmits | wireless/hardware_events.py:202-221 | the window so opened admits exactly what comes before its end, and the other one nothing |
| ButtonHolds.LapsedHoldOpensNothing | wireless/hardware_events.py:312-326 | a press not seen for longer than the lease is over as cancelled and opens nothing |
| ButtonHolds.CancelledHoldOpensNothing | wireless/hardware_events.py:129-143 | nor does a cancelled one, at whatever time it is released |
| ButtonHolds.LivePressIsAlone | wireless/hardware_events.py:69-87 | while a press is live no other starts |
| ButtonHolds.GateEndsHolds | wireless/hardware_events.py:232-244 | maintenance and powering off end a hold and both windows |
| ButtonHolds.PowerExactly | wireless/hardware_events.py:149-200 | a power request begins iff nothing forbids it and it changes something, and ends as asked iff its callback worked |
| HardwareEvents.HardwareEvents.OnDown | wireless/hardware_events.py:69-87 | the modelled press, with its gate, replay and lease |
| HardwareEvents.HardwareEvents.OnKeepalive | wireless/hardware_events.py:89-97 | the modelled keepalive |
| HardwareEvents.HardwareEvents.OnUp | wireless/hardware_events.py:99-127 | the modelled release, which opens one window, closes the other and reports the rounded time |
| HardwareEvents.HardwareEvents.OnCancel | wireless/hardware_events.py:129-143 | the modelled cancel, which any state admits |
| HardwareEvents.HardwareEvents.Power | wireless/hardware_events.py:149-200 | a whole power request around its callback |
| HardwareEvents.HardwareEvents.MaintenanceMode | wireless/hardware_events.py:236-244 | maintenance closes windows and press |
| HardwareEvents.HardwareEvents.RememberFinished | wireless/hardware_events.py:333-339 | the newest 32 results are kept, the newest last |
| RequestLimits.IntervalsAreBounded | wireless/request_limits.py:36-50 | over any run of requests, served in any order with skew d, no interval of 60 - d seconds holds more of a key's admitted times than its group's maximum |
| RequestLimits.IntervalsExactly | wireless/request_limits.py:36-50 | intervals of length L keep to the maximum in all runs with skew d iff L is at most 60 - d |
| RequestLimits.OvertakenOverflows | wireless/request_limits.py:36-50 | a request overtaken by one that clears the window is one too many for every longer interval |
| RequestLimits.AdmissionKeepsSpacing | wireless/request_limits.py:36-50 | admitting below the maximum keeps any maximum + 1 admissions 60 s less the spread apart |
| RequestLimits.RequestLimits.AdmittedIsBounded | wireless/request_limits.py:36-50 | the bound for the admitted times behind the object's windows, by the disorder it has met |
| RequestLimits.OrderedWindowIsRecent | wireless/request_limits.py:41-42 | while a key's readings come in order, its popped window is exactly its admitted times of the last 60 s |
| RequestLimits.OrderedRequestsExactly | wireless/request_limits.py:36-50 | requests of a key that read the clock in order are admitted iff fewer than the group's maximum were admitted in the last 60 s |
| RequestLimits.RefusedThenAdmitted | wireless/request_limits.py:36-50 | over any run in any order, a refused request that is repeated after the wait it was told is admitted, whatever was requested in between, unless one of its key was admitted |
| RequestLimits.WaitsAreBounded | wireless/request_limits.py:46-48 | the told wait is at most 61 s and the skew |
| RequestLimits.WaitsCanExceed61 | wireless/request_limits.py:46-48 | a reading d behind a full window is told to wait 61 + d seconds |
| RequestLimits.WaitingSuffices | wireless/request_limits.py:46-48 | once the told wait is over, a full window has room, however its times are ordered |
| RequestLimits.PoppedExactly | wireless/request_limits.py:41-42 | popping removes the expired front and nothing else |
| RequestLimits.PopExpired | wireless/request_limits.py:41-42 | the loop pops just that |
| RequestLimits.RequestLimits.Charge | wireless/request_limits.py:36-50 | a request is admitted iff fewer than the maximum of times are left, is told the modelled wait otherwise, and only the evicted key and its own change |
| RequestLimits.RequestLimits.Check | wireless/request_limits.py:14-50 | routes outside the groups are never limited and change nothing |
| OrderedKeys.TouchedKeepsStep | wireless/request_limits.py:43-45 | a table never exceeds its limit and never evicts the key just touched |
| OrderedKeys.EvictsOldest | wireless/request_limits.py:43-45 | only the least recently touched key is lost, and only when a new key meets a full table |
| HttpResponse.AcceptedExactly | wireless/ble_http.py:355-397 | exactly a good header block of at most 16384 bytes, a blank line and a body of the announced length are accepted |
| HttpResponse.PrefixesIncompleteExactly | wireless/ble_http.py:355-362 | all proper prefixes of an accepted response are incomplete iff its header block ends at offset 16381 or before |
| HttpResponse.PrefixOutcome | wireless/ble_http.py:355-397 | what every proper prefix of an accepted response parses to |
| HttpResponse.TrailingBytesRefused | wireless/ble_http.py:395-396 | bytes beyond the announced body are refused |
| HttpResponse.ReadExactly | wireless/ble_http.py:283-307 | a chunking is refused iff some chunk ends past the limit but before the blank line's end, and gives the one response otherwise |
| HttpResponse.ChunkingDoesNotMatter | wireless/ble_http.py:283-307 | up to offset 16381 every chunking gives the same response |
| HttpResponse.ChunkingMattersPast16381 | wireless/ble_http.py:283-307 | at offsets 16382 to 16384 full chunks receive what another chunking is refused |
| HttpResponse.LateHeadersAreAccepted | wireless/ble_http.py:283-307 | for each offset 16382 to 16384 a concrete response is accepted in full chunks and refused in another chunking |
| HttpResponse.ReadHttpResponse | wireless/ble_http.py:283-307 | the read loop returns what the specification of a chunking says |
| HttpResponse.CollectFields | wireless/ble_http.py:372-379 | the loop collects each field once or refuses a duplicate, empty or malformed one |
| EmbeddingFormat.DecodeInvertsEncode | car_face_auth/src/embedding_format.py:49-80 | every valid collection is decoded from its encoding of 12 + 2048 n bytes |
| EmbeddingFormat.EncodeInvertsDecode | car_face_auth/src/embedding_format.py:56-80 | every accepted blob is the encoding of what it decodes to |
| EmbeddingFormat.EncodingIsBijective | car_face_auth/src/embedding_format.py:49-80 | encoding is a bijection between valid collections and accepted blobs |
| EmbeddingFormat.ValidateEmbeddings | car_face_auth/src/embedding_format.py:25-46 | the loop accepts exactly 1 to 10 finite non-zero 512-value vectors |
| EmbeddingFormat.EncodeEmbeddings | car_face_auth/src/embedding_format.py:49-54 | the loop produces the specified encoding |

## Left out

- TLS, certificates, PBKDF2, SHA-256 and DPAPI: library behaviour; digests and hashes are injective values.
- BlueZ, GLib, Bleak, sockets, Flask, Cheroot and mDNS: only the events they deliver to the modelled objects.
- Camera, InsightFace scoring and JPEG streams: a scan ends in a candidate that is a parameter.
- Input normalisation (strip, length and format checks of names, PINs, ids and tokens): arguments are already normal.
- `initial_admin` of the security store: unreachable once the lifecycle row exists, which startup creates.
- `principal`, `list_devices`, `get_user` and the other readers: they only project rows.
- The unique index on active names and `add_user`: a retired path; name clashes are modelled only where `create_user` checks them.
- Audit rows, timestamps such as last_seen and updated_at, device names and the face-failure counter: nothing modelled depends on them.
- Ownership transfers: the routes are retired.
- Backup contents, file permissions and the manifest: a backup works or fails.
- `DeveloperReset` journal parsing and startup file checks beyond the refusal rule.
- Pruning of old sessions, status texts, progress updates and cooldown messages of the scan runtime.
- Serial line parsing (`parse_line`, `parse_state`) and the reader thread of the controller link: only results and cancellations reach the model.
- Deadline timers of the gateway are events that may fire at any time, so how long they take is not modelled.
- Actuation.ArmingExactly: a timer is a number that may fire at any time; that it runs for the delay it was armed with is not modelled.
- `BleTunnel.read_tls` and `_close`: the client's read loops are the mirror of the frames proved for the host.
- HttpResponse.ReadHttpResponse: does not model TLS retries between chunks, because they only deliver the next chunk later.
- SecuritySchema.TriggersKeepTopologyExactly: speaks of single-row statements on the guarded columns; updates of key columns, REPLACE and multi-row statements are not among them; the program issues one of these on the guarded tables only when a product reset empties them (ResetProduct).
- SecurityStore.SecurityStore.Pair: the receipt of a resumable pairing is in CommissioningStore.Submit, which wraps it.
- HardwareEvents.HardwareEvents.OnUp: rounds to milliseconds over the reals; the binary representation of a float is not modelled.
- CommissioningRefinement.SubmitIsProcess: covers claim, recovery, pairing, replay and reset; that the other security operations only issue and withdraw invites of the protocol host is not proved, and a legacy product has no protocol host.
- Commissioning clients: one client and the messages of all others; an invite leaves the host by its end, by use or by an explicit withdrawal.
- EmbeddingFormat.ValidateEmbeddings: values are already float32 words; the conversion from Python numbers is NumPy's.
- EnrollmentRequests.EnrollmentRequestStore.EndedStaysEnded: speaks of runs between product resets, which delete the receipts.
