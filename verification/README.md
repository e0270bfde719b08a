# CrossDesk signaling server: a verified model

This project models the stateful core of the CrossDesk signaling server in
Dafny and proves what the server relies on. `dafny verify dfyconfig.toml`
checks all of it.

There are two linked state machines.

**The credential admission pipeline.** Password checks are expensive, so the
server limits who may start them, how often and how many at a time.

- `WorkLimiter.dfy`: the per-source rate window (`CredentialWorkLimiter`).
- `QueueSpec.dfy`, `QueueHistory.dfy`, `QueueIds.dfy`, `QueueLogs.dfy`,
  `QueueTurns.dfy`, `QueueWindows.dfy`, `CredentialQueue.dfy`: the bounded
  round-robin scheduler with cancellation, expiry, rate-limit waits and callbacks
  that enqueue (`CredentialQueue`).
- `AuthSpec.dfy`, `AuthRuns.dfy`, `AuthBudget.dfy`, `DeviceAuthLimiter.dfy`: the
  failure budgets with exponential backoff; `Verify` is two locked steps, `Begin`
  and `Finish`, with any number of checks in flight between them.
- `ServerSpec.dfy`, `ServerReserve.dfy`, `ServerOrder.dfy`,
  `ServerFairness.dfy`, `ServerDeadlines.dfy`, `ServerCleanups.dfy`,
  `ServerHolds.dfy`, `ServerAttendance.dfy`, `ServerRequests.dfy`,
  `SignalServer.dfy`: the application worker with its lifecycle reserve, connection
  admission and cleanup, the hashing workers, and the deferral of a connection's
  messages while its hash runs.

**Rooms, routes, grants and the session ledger.** Who may talk to whom, and what
survives a crash.

- `RoomsSpec.dfy`, `RoomsFacts.dfy`, `RoomsRelease.dfy`, `RoomsPrune.dfy`,
  `RoomsQuiet.dfy`, `RoomsExpiry.dfy`, `RoomsRuns.dfy`, `RoomsRoutes.dfy`,
  `TransmissionManager.dfy`: the interlocking maps of
  `TransmissionManager` and the batching of its notifications.
- `SessionTables.dfy`, `RecoverySpec.dfy`, `RecoveryFacts.dfy`,
  `RecoveryGrants.dfy`, `RecoveryRuns.dfy`, `RecoverySafety.dfy`,
  `RecoveryReturns.dfy`, `RecoverySteps.dfy`, `SessionRecovery.dfy`: the persisted
  session ledger, recovery tickets that both ends must confirm, and runs with
  crashes and restarts.
- `DeviceRows.dfy`, `DeviceHistory.dfy`, `DevicePasswords.dfy`: device rows, login
  keys and reconnect credentials.
- `Retention.dfy`, `RetentionFacts.dfy`, `RetentionRuns.dfy`,
  `RetentionPairs.dfy`: batched retention of devices.

`Ordering.dfy` gives the iteration order of the ordered containers,
`Sequences.dfy` subsequences.

Each component has a specification, functions over a value datatype, and a
class whose fields and loops are those of the C++ class and whose methods are
proved to compute the specification. The theorems are lemmas about the
specification: invariants kept by every step, and statements about every run
from the initial state. Where a state holds a derived value, a refusal's end, a
failure count, a route, a deadline, the theorem over runs tells it from what
happened alone: the starts, the failures, the logins, the acceptances. Fields
called history (`fates`, `decisions`, `failed`, `stale`, `notes`, `arrived`,
`handled`) record what happened; no operation reads them.

The shared conventions are these. Time is a natural number, read once in each
atomic step. A lock scope, an SQL transaction and a job of the application worker
are atomic steps. A connection handle is a number ordered by owner, which
outlives the connection; the set of live handles is an input of each step. SQL
tables are maps, with their triggers part of the delete or update. A crash keeps
only the tables; a start runs the constructors on them. Passwords, signatures,
digests and random tokens are inputs: the outcome of a check, a digest that
tells tokens apart, a given token.

Two places deserve a reader's attention.

- Ending a user's last connection closes one room only, and looks it up with a
  function that returns an empty string both for "none" and for a room with an
  empty name. `LogoutClosesRooms` states exactly when that leaves nothing
  hosted. Logins name each room after its host, and then it always does
  (`LogoutIsComplete`).
- Retention pairs an identity with its `C-` clone by prefix, and a login may
  bring in the clone of a clone, `C-C-x`, which is paired with `C-x`. Then a row
  can go without the rest of its identity, and the batch size can decide what is
  left. `PairedIff`, `BatchWhole`, `BatchesEqualWhole` and `EverySizeSameRows`
  state exactly when; `CloneOfCloneUnpairs`, `RowStays` and `AssociationStays`
  are tables on which it happens.

## Model

| member | source | states |
|---|---|---|
| `WorkLimiting.CredentialWorkLimiter.Cleanup` | src/device_auth_limiter.cpp:192-200 | once a minute the table keeps exactly the windows that have not ended |
| `WorkLimiting.CredentialWorkLimiter.Admit` | src/device_auth_limiter.cpp:188-218 | a token is handed out or refused, with the delay, exactly as `Ask` says: full table, new or ended window, spent window |
| `WorkLimiting.PacedTook` | src/device_auth_limiter.cpp:204-217 | a token handed out extends the source's history: windows are 60 seconds, apart, and hold at most `limit` tokens each |
| `WorkLimiting.PacedRefused` | src/device_auth_limiter.cpp:207-215 | a refusal takes no token, and the table entry still agrees with the tokens handed out |
| `WorkLimiting.PacedOther` | src/device_auth_limiter.cpp:192-206 | calls for other sources, cleanup included, do not disturb a source's windows |
| `WorkLimiting.MinuteBound` | src/device_auth_limiter.cpp:188-218 | no half-open minute, wherever it begins, holds more than twice the limit of tokens of one source |
| `WorkLimiting.MinuteBoundReached` | src/device_auth_limiter.cpp:205-217 | the bound is tight: a run in which one minute holds exactly twice the limit |
| `CredentialQueues.CredentialQueue.constructor` | src/credential_queue.h:40-46 | a new queue is empty, with all workers idle |
| `CredentialQueues.CredentialQueue.Enqueue` | src/credential_queue.h:48-65 | total capacity, duplicate id and per-source capacity are refused, each with its own counter; otherwise the job waits last in its source |
| `CredentialQueues.CredentialQueue.Cancel` | src/credential_queue.h:67-80 | the first waiting job of that id, in key order of the sources, leaves; running jobs stay; an emptied source vanishes |
| `CredentialQueues.CredentialQueue.Complete` | src/credential_queue.h:82-92 | the worker becomes idle and its source is charged one job less; completing an idle worker is an error and changes nothing |
| `CredentialQueues.CredentialQueue.PruneJobs` | src/credential_queue.h:103-116 | dead and late waiting jobs of one source leave, late live ones as expired, the others as canceled |
| `CredentialQueues.CredentialQueue.Prune` | src/credential_queue.h:99-119 | the loop over all sources with erasure computes `Prune` and returns the expired jobs in order |
| `CredentialQueues.CredentialQueue.Callback` | src/credential_queue.h:121-121 | one expiry callback enqueues what it asks for, in order |
| `CredentialQueues.CredentialQueue.Turn` | src/credential_queue.h:124-124 | the round begins after the source served last (`upper_bound`) |
| `CredentialQueues.CredentialQueue.Offer` | src/credential_queue.h:127-144 | one source is skipped, refused with a delay, or served; the rest of the round is unaffected |
| `CredentialQueues.CredentialQueue.Round` | src/credential_queue.h:124-145 | the circular iteration offers the worker to every source once, in key order from the last one served |
| `CredentialQueues.CredentialQueue.Serve` | src/credential_queue.h:122-146 | one idle worker is given to the first ready source that is not refused |
| `CredentialQueues.CredentialQueue.Schedule` | src/credential_queue.h:122-146 | every idle worker is offered to the sources, in worker order |
| `CredentialQueues.CredentialQueue.Pump` | src/credential_queue.h:94-147 | prune, callbacks, schedule; a call from inside a callback returns at once and changes nothing |
| `CredentialQueues.CredentialQueue.Active` | src/credential_queue.h:149-152 | the count of busy workers |
| `CredentialQueues.CredentialQueue.Waiting` | src/credential_queue.h:153-153 | ids less busy workers, which is the number of ids that wait in some source |
| `QueueSpec.EnqueueValid` | src/credential_queue.h:49-65 | keeps the representation invariant: `ids` is the disjoint union of waiting and running ids, each source's `outstanding` is its waiting plus running jobs and positive, both capacities hold, the counters balance |
| `QueueSpec.CancelValid` | src/credential_queue.h:68-80 | cancellation keeps the representation invariant |
| `QueueSpec.FreeValid` | src/credential_queue.h:82-92 | a completion finds its source and keeps the representation invariant |
| `QueueSpec.Prune` | src/credential_queue.h:102-119 | pruning keeps the representation invariant |
| `QueueSpec.ScheduleValid` | src/credential_queue.h:122-146 | scheduling keeps the representation invariant |
| `QueueHistory.PruneKeysEffect` | src/credential_queue.h:102-119 | what stays of each source is, in order, exactly its live and timely jobs; every other waiting job has expired or been canceled; starts and `not_before` are untouched |
| `QueueHistory.ScanChoice` | src/credential_queue.h:124-145 | the source served is the first of the round that is ready and not refused; all before it are not ready afterwards |
| `QueueHistory.PumpWorks` | src/credential_queue.h:94-147 | work conservation: if a worker is idle after `Pump`, every source has no waiting job or is before its `not_before`; expiry callbacks may enqueue anything |
| `QueueHistory.Fairness` | src/credential_queue.h:122-146 | the cyclic-order argument: while a source is open at every decision of a stretch and not served before its end, no source is served twice in it |
| `QueueHistory.RunConserves` | src/credential_queue.h:49-147 | over every run: accepted = waiting + started + expired + canceled, started = completed + active, and job by job each accepted job is waiting or has met exactly one fate |
| `QueueHistory.RunStartsInOrder` | src/credential_queue.h:60-143 | over every run the jobs of one source start in the order in which they were accepted, those still waiting after them |
| `QueueHistory.RunFair` | src/credential_queue.h:122-146 | round-robin fairness over every run, as sources appear and vanish |
| `QueueHistory.RunPaced` | src/credential_queue.h:129-143 | over every run at most 2·limit jobs of one source start in any minute: tokens are consumed by starts and by nothing else |
| `QueueWindows.RunWaitsOut` | src/credential_queue.h:122-146 | over every run, told from the starts alone: if a pump leaves a worker idle, a source whose jobs still wait has started exactly `limit` jobs in its current 60 second window and waits for that window's end, or, with no window of its own open, it was refused less than 60 seconds ago when 16384 sources had started jobs in the two minutes before, and waits for the end of those 60 seconds |
| `QueueWindows.ScheduleCounts` | src/credential_queue.h:130-136 | `source_waits` grows by exactly the sources that scheduling newly holds back |
| `QueueTurns.PumpJudges` | src/credential_queue.h:94-147 | one pump deals with every waiting request: the dead are canceled, the late expired, the others wait on or start; what the callbacks of the expired ask for is accepted or refused for capacity, and nothing else waits |
| `QueueIds.EnqueueStays` | src/credential_queue.h:49-65 | a live, timely request just accepted is not removed by the pump that follows |
| `QueueIds.EnqueueIff` | src/credential_queue.h:48-65 | a request is accepted if and only if fewer than `capacity` requests wait or run, none has its id, and its source has fewer than its share; which refusal raises `full` and which `source_full`; told from the waiting lists and the busy workers |
| `QueueIds.CancelExactly` | src/credential_queue.h:67-80 | canceling a waiting id removes that request and no other, wherever it waits; any other id changes nothing |
| `QueueIds.PruneIds` | src/credential_queue.h:102-119 | pruning removes only requests that may not stay; a live request that is gone is among the expired ones |
| `QueueIds.ScheduleIds` | src/credential_queue.h:122-146 | scheduling forgets no request and reassigns no busy worker |
| `QueueLogs.RunLogs` | src/credential_queue.h:49-147 | over every run each counter of `Stats` counts its events, and the decisions that picked a source are, in order, the starts |
| `DeviceAuthLimiting.Buckets.PruneExpired` | src/device_auth_limiter.cpp:27-34 | the erasing loop removes exactly the expired buckets without checks in flight |
| `DeviceAuthLimiting.Buckets.Retry` | src/device_auth_limiter.cpp:131-142 | the record is reset if expired; the wait is the cooldown, or 1 when all available reservations are taken |
| `DeviceAuthLimiting.Buckets.Take` | src/device_auth_limiter.cpp:154-162 | one reservation more, in a new bucket if there was none; the generation is remembered |
| `DeviceAuthLimiting.Buckets.Settle` | src/device_auth_limiter.cpp:173-180 | the reservation is returned, the failure recorded unless the generation changed, and an empty bucket erased |
| `DeviceAuthLimiting.Buckets.ClearAll` | src/device_auth_limiter.cpp:100-115 | cleared idle buckets vanish; the others start a new generation and keep their reservations |
| `DeviceAuthLimiting.DeviceAuthLimiter.constructor` | src/device_auth_limiter.cpp:17-25 | both tables are empty |
| `DeviceAuthLimiting.DeviceAuthLimiter.Begin` | src/device_auth_limiter.cpp:118-163 | the locked first half of `Verify`: the retry delay, the refusal of new keys when a table is full, or both reservations |
| `DeviceAuthLimiting.DeviceAuthLimiter.Finish` | src/device_auth_limiter.cpp:171-183 | the locked second half of `Verify` settles both reservations |
| `DeviceAuthLimiting.DeviceAuthLimiter.ClearMatching` | src/device_auth_limiter.cpp:91-116 | an administrator's clear of any set of source and target buckets |
| `DeviceAuthLimiting.DeviceAuthLimiter.CooldownRemaining` | src/device_auth_limiter.cpp:62-72 | the longer of the two cooldowns, changing nothing |
| `AuthSpec.BucketLocks` | src/device_auth_limiter.cpp:45-60 | the failure that reaches the limit locks the record, and at that instant nothing is in flight for it |
| `AuthSpec.BucketClimbs` | src/device_auth_limiter.cpp:49-59 | a failure after the cooldown of an unexpired record doubles the backoff up to four hours |
| `AuthRuns.NextGood` | src/device_auth_limiter.cpp:118-186 | every step of every interleaving keeps both dimensions' bucket invariants and the two tables' reservations paired |
| `AuthRuns.StepDoubles` | src/device_auth_limiter.cpp:50-54 | the rungs of the ladder are min(60·2^k, 14400) seconds |
| `AuthRuns.RunLadder` | src/device_auth_limiter.cpp:45-60 | over every run: the (limit+k)-th failure of a record comes at least the sum of the first k rungs after the limit-th |
| `AuthRuns.RunReservations` | src/device_auth_limiter.cpp:139-180 | over every run `pending` is the number of checks in flight for the key, each of which finds its bucket; count ≤ limit, pending ≤ limit − count below the limit and ≤ 1 at it; tables stay bounded |
| `AuthRuns.RunLocked` | src/device_auth_limiter.cpp:136-141 | over every run a check in flight on a locked record began after its cooldown |
| `AuthRuns.FailureCounts` | src/device_auth_limiter.cpp:173-179 | a failure is recorded if and only if its bucket was not cleared since its check began, in spite of erased and recreated buckets |
| `AuthRuns.ClearMarks` | src/device_auth_limiter.cpp:97-116 | the checks a clear makes stale are exactly those in flight in the cleared buckets, which keep their reservations |
| `AuthRuns.CooldownForetells` | src/device_auth_limiter.cpp:62-72 | while the remaining cooldown is positive, the next `Verify` is refused for exactly that long |
| `AuthBudget.RunShutsOut` | src/device_auth_limiter.cpp:36-60 | over every run, told from the failures alone: 2·limit − 1 failures of a key within 900 seconds since its last clear shut it out; no check of it is admitted until a rung of the ladder after the last failure |
| `AuthBudget.RunBlocksOnly` | src/device_auth_limiter.cpp:45-60 | a key is shut out only after `limit` failures in succession within 900 seconds, and then exactly for the rung that the failures since then have climbed to |
| `AuthBudget.AdmitsIff` | src/device_auth_limiter.cpp:118-163 | a check is admitted if and only if both keys are welcome (not shut out, and with fewer checks in flight than failures left, or none after a cooldown) and each is known or its table has room |
| `AuthBudget.FinishLeaves` | src/device_auth_limiter.cpp:171-181 | a finished check leaves its bucket behind if and only if another check of the key is in flight, failures are still remembered, or it failed and was not cleared |
| `AuthBudget.RunSwept` | src/device_auth_limiter.cpp:27-34 | over every run: after a check has begun no bucket without checks in flight is more than a minute past its end |
| `AuthBudget.RunNames` | src/device_auth_limiter.cpp:43-46 | over every run a key's record names exactly the operations whose failures it still counts |
| `TransmissionManagers.TransmissionManager.Lock` | src/transmission_manager.cpp:72-77 | entering a lock scope changes nothing but the depth |
| `TransmissionManagers.TransmissionManager.Unlock` | src/transmission_manager.cpp:79-86 | the outermost unlock delivers the batched notifications in order; inner ones deliver none |
| `TransmissionManagers.TransmissionManager.NotifyRemoteControl` | src/transmission_manager.cpp:88-97 | a notification is batched only when a callback is installed |
| `TransmissionManagers.TransmissionManager.ReleaseTransmission` | src/transmission_manager.cpp:113-131 | the room, its guests and grants go, with one end notification per guest in order |
| `TransmissionManagers.TransmissionManager.BindHostToTransmission` | src/transmission_manager.cpp:242-254 | a room gets a host once; temporary controllers neither host nor name rooms |
| `TransmissionManagers.TransmissionManager.BindGuestToTransmission` | src/transmission_manager.cpp:256-279 | a new guest is appended and notified; the host, duplicates and empty ids are refused |
| `TransmissionManagers.TransmissionManager.BindGuestHandle` | src/transmission_manager.cpp:304-322 | membership if missing, and the grant of the room to this connection |
| `TransmissionManagers.TransmissionManager.BindUserToWsHandle` | src/transmission_manager.cpp:281-302 | routes follow the latest login, except that `C-` ids keep an existing route; a socket never changes identity |
| `TransmissionManagers.TransmissionManager.ReleaseGuestFromTransmission` | src/transmission_manager.cpp:350-378 | the guest, its grant and an emptied room entry go, with one end notification |
| `TransmissionManagers.TransmissionManager.ReleaseGuestEverywhere` | src/transmission_manager.cpp:338-348 | the erasing loop releases the guest from every room, in key order |
| `TransmissionManagers.TransmissionManager.DisconnectTransmission` | src/transmission_manager.cpp:380-387 | an existing room is released |
| `TransmissionManagers.TransmissionManager.PruneDisconnectedTransmissions` | src/transmission_manager.cpp:389-432 | both collecting passes and their releases compute `Prune`, and the count returned is its count |
| `TransmissionManagers.TransmissionManager.ReleaseUserFromWsHandle` | src/transmission_manager.cpp:472-501 | the handle is unbound; its user's route moves to the first other handle of that user or vanishes |
| `TransmissionManagers.TransmissionManager.ReleaseUserSession` | src/transmission_manager.cpp:434-470 | the grants on the handle are given back; when it was the user's last one the user leaves every room and closes the first it hosts |
| `TransmissionManagers.TransmissionManager.UpdateWsHandleLastActiveTime` | src/transmission_manager.cpp:568-578 | only a bound connection has an activity time |
| `TransmissionManagers.TransmissionManager.ExpireInactiveSessions` | src/transmission_manager.cpp:606-628 | the erasing loop ends every connection that is gone or silent for more than 30 seconds, each with the id it logged out, under one lock scope |
| `TransmissionManagers.TransmissionManager.IsHost` | src/transmission_manager.cpp:133-139 | the first room, in key order, hosted by the user |
| `TransmissionManagers.TransmissionManager.GetWsHandle` | src/transmission_manager.cpp:535-559 | inside a room: the host by its route, a guest only by its granted and still bound handle |
| `TransmissionManagers.TransmissionManager.IsConnectionInTransmission` | src/transmission_manager.cpp:561-566 | the connection is live and is the one its user has in the room |
| `TransmissionManagers.TransmissionManager.IsAuthorizedPeerSignal` | src/signal_negotiation.cpp:111-130 | the authorization test of peer signals |
| `RoomsFacts.RerouteAgrees` | src/transmission_manager.cpp:485-499 | after unbinding, every route still leads to a handle bound to that user and every bound user has a route |
| `RoomsFacts.BindUserKeeps` | src/transmission_manager.cpp:281-302 | binding keeps routes and handles in agreement through `C-` sharing and overwrites, and touches no room |
| `RoomsRoutes.RunRoutes` | src/transmission_manager.cpp:281-302 | over every sequence of calls, who is logged in where and where a user's route leads follow from the logins, disconnections and expiries among them alone |
| `RoomsRoutes.RunFollowsLastLogin` | src/transmission_manager.cpp:291-297 | over every sequence of calls, the route of an id without `C-` is the connection of its last successful login while that connection is bound |
| `RoomsRoutes.RunKeepsSharedRoute` | src/transmission_manager.cpp:291-297 | over every sequence of calls, the route of a `C-` id stays where it is while that connection is bound, whatever logins follow |
| `RoomsRoutes.RouteMovesOn` | src/transmission_manager.cpp:484-499 | when the routed connection is released, the route becomes the least other connection of the user, or vanishes |
| `RoomsFacts.GrantGuestEffect` | src/transmission_manager.cpp:304-322 | a join that succeeds adds exactly the membership and a grant on a live handle of that guest; one that fails changes nothing |
| `RoomsFacts.ReleaseRoomEffect` | src/transmission_manager.cpp:113-131 | releasing a room removes exactly its memberships |
| `RoomsFacts.DropGuestKeeps` | src/transmission_manager.cpp:350-378 | dropping a guest keeps all maps consistent and the notifications replayable |
| `RoomsRelease.TakeBackExactly` | src/transmission_manager.cpp:442-451 | in the middle of a release the grants on the closed handle, and the memberships they carried, go and no others |
| `RoomsRelease.SessionEnds` | src/transmission_manager.cpp:434-470 | a closed connection leaves no grant on its handle; the id is returned exactly when the user has no other connection; the memberships lost are exactly those granted on the handle, or, at a logout, all of the user's and all of the room it closes |
| `RoomsRelease.LogoutClosesRooms` | src/transmission_manager.cpp:461-467 | after a logout the user hosts nothing if and only if it hosted at most one room and none named "" |
| `RoomsRelease.LogoutClosesFirst` | src/transmission_manager.cpp:461-467 | of several rooms of one user a logout closes the first in key order |
| `RoomsRelease.LogoutLeavesRooms` | src/transmission_manager.cpp:461-467 | consistent rooms after whose logout the user still hosts: two rooms of one user, or one room named "" |
| `RoomsRelease.LogoutIsComplete` | src/transmission_manager.cpp:434-470 | with rooms keyed by their host, a logged-out id has no connection, route, membership, grant or room |
| `RoomsPrune.PruneExactly` | src/transmission_manager.cpp:389-432 | pruning keeps exactly the rooms with a connected host and the members present in them, and returns the number of memberships removed |
| `RoomsPrune.PruneKeepsIff` | src/transmission_manager.cpp:389-432 | a room survives if and only if some connection is bound to its host, a membership if and only if besides its guest is reachable in the room on a live connection; told from the connections and grants |
| `RoomsPrune.PruneTwice` | src/transmission_manager.cpp:389-432 | a second prune changes nothing and returns 0 |
| `RoomsExpiry.ExpireExactly` | src/transmission_manager.cpp:606-628 | exactly the inactive connections are unbound and hold no grant afterwards; a user is logged out if and only if one of its connections ended and none is left; no inactive connection remains |
| `RoomsRuns.SignalsFollowGrants` | src/signal_negotiation.cpp:111-130 | peer signals are authorized if and only if they go between the room's host, on its route, and a guest on the handle granted to it, both live |
| `RoomsRuns.SignalsAreAnswerable` | src/signal_negotiation.cpp:111-130 | an authorized signal's recipient may answer, and the answer reaches the sender's connection |
| `RoomsRuns.ReplayAlternates` | src/transmission_manager.cpp:88-97 | notifications replay if and only if for every (room, guest) starts and ends strictly alternate; the last one tells membership |
| `RoomsRuns.RunKeeps` | src/transmission_manager.cpp:113-628 | every sequence of calls keeps rooms, routes and grants consistent: each grant is on a handle bound to a member of the room |
| `RoomsRuns.RunNotifies` | src/transmission_manager.cpp:72-97 | from the installation of the callback on, through nested releases, the notifications replay to exactly the current memberships and alternate pair by pair |
| `SessionTables.SessionStore.StartRemoteControlSession` | src/device_db_manager/device_db_manager.cpp:1158-1252 | a row is added unless it exists; empty ids and a host that is its own guest are refused |
| `SessionTables.SessionStore.EndRemoteControlSession` | src/device_db_manager/device_db_manager.cpp:1253-1281 | the row goes and, by trigger, its saved ticket |
| `SessionTables.SessionStore.EndRemoteControlTransmission` | src/device_db_manager/device_db_manager.cpp:1283-1316 | all rows of a room that can be ended are ended |
| `SessionTables.SessionStore.Note` | src/signal_server.cpp:186-199 | the session callback starts or ends the row of one notification |
| `SessionTables.DeliverAppend` | src/signal_server.cpp:186-199 | delivering two batches is delivering both in order |
| `RecoveryFacts.DeliverEnds` | src/transmission_manager.cpp:79-86 | delivering replayable end notifications deletes exactly the rows of the memberships that ended |
| `RecoveryFacts.SettleReleases` | src/transmission_manager.cpp:79-86 | after any release, settling its notifications leaves the ledger equal to memberships plus recovering tickets |
| `RecoveryFacts.DismissExactly` | src/session_recovery.cpp:187-191 | ending a session removes exactly its membership, row and saved ticket |
| `RecoveryFacts.ExpireAgrees` | src/session_recovery.cpp:214-240 | expiry of tickets and legacy sessions keeps the ledger in step |
| `RecoveryGrants.GrantSettles` | src/signal_negotiation.cpp:752-761 | a successful join ends with membership, grant and row in place, whether or not a notification was sent |
| `RecoveryGrants.JoinAgrees` | src/signal_negotiation.cpp:735-771 | a join, with the ticket it issues or supersedes, keeps the ledger in step |
| `RecoveryGrants.ResumeAgrees` | src/session_recovery.cpp:198-211 | a resumption moves a session from recovering to membership without losing or doubling it |
| `RecoveryRuns.RestoreAllKeeps` | src/signal_server.cpp:94-118 | restoring at startup makes exactly the rows without a ticket memberships again |
| `RecoveryRuns.BootAgrees` | src/session_recovery.cpp:40-83 | a start on any well-formed tables is in step: rows without ticket are memberships, the others recovering; stale rows and orphan tickets are gone |
| `RecoveryRuns.ReportAgrees` | src/session_recovery.cpp:172-212 | a report, alive or not, keeps the ledger in step |
| `RecoveryRuns.LoginAgrees` | src/session_recovery.cpp:130-142 | a login, with the legacy sessions it confirms, keeps the ledger in step |
| `RecoveryRuns.AdminAgrees` | src/admin/admin_controller.cpp:842-884 | an administrator's disconnect keeps the ledger in step |
| `RecoveryRuns.StepAgrees` | src/signal_server.cpp:182-199 | every step keeps: ledger keys = memberships + recovering tickets, disjoint; tickets match their saved rows |
| `RecoveryRuns.RunLedger` | src/session_recovery.cpp:40-240 | from any start, over every run with logins, joins, reports, disconnects, expiry, pruning, administrator disconnects, crashes and restarts: the ledger's keys are exactly the memberships plus the recovering sessions, counted once |
| `RecoveryRuns.RestartKeepsSessions` | src/device_db_manager/device_db_manager.cpp:562-582 | a restart within two minutes of the last heartbeat loses and adds no session; a later one clears all |
| `RecoverySteps.BootTerms` | src/session_recovery.cpp:40-83 | what a start finds, pair by pair: the ledger survives if and only if the last heartbeat is at most two minutes old; a session with a saved ticket recovers under its token with neither end ready, one without is to be confirmed, both until `timeout` from now |
| `RecoverySteps.RunTerms` | src/session_recovery.cpp:67-78 | over every run with crashes a session still to be confirmed has until the end of the term the last start set; nothing prolongs it |
| `RecoverySteps.StepSessions` | src/session_recovery.cpp:130-240 | the memberships after each event are those before, less the ones that leave and with the ones that enter, each told from the event: joins, departures, kicks, reports of an end, closed connections, heartbeats, sweeps, administrator disconnects |
| `RecoverySteps.JoinEffect` | src/signal_negotiation.cpp:735-766 | exactly when a join succeeds, and what it leaves: membership, grant, row, and a fresh ticket with its saved copy if both connections can recover, or none |
| `RecoverySteps.ClosedEffect` | src/transmission_manager.cpp:434-470 | a closed connection ends exactly the memberships granted on it and, when it was the user's last, all of the user's and those of the room it hosts |
| `RecoverySteps.OverEffect` | src/session_recovery.cpp:187-191 | a report that a session is over, with the right token from one of its ends in time, removes its membership, ticket, row and saved copy; any other changes nothing |
| `RecoverySteps.LoginEffect` | src/session_recovery.cpp:130-142 | a login binds the connection, hosts the user's room unless it is a temporary controller, and settles exactly the legacy sessions both of whose ends are back |
| `RecoverySteps.HeartbeatEffect` | src/session_recovery.cpp:214-240 | a heartbeat drops exactly the tickets that were never reunited in time or lost their row, and ends exactly the sessions whose legacy term ran out |
| `RecoverySafety.RunRestoresOnlyJoins` | src/session_recovery.cpp:144-212 | over every run with crashes: every row and ticket stems from a password join, every ready end of a ticket reported its token (in time while recovering), and every grant is of a join or of reports from both ends |
| `RecoverySafety.ResumeNeedsBothEnds` | src/session_recovery.cpp:172-212 | a ticket leaves the recovering state only by a new join of the same guest, or by a timely report once both ends have reported its token in time on live connections still bound to them |
| `RecoveryReturns.RunResumesIff` | src/session_recovery.cpp:172-212 | over every run with crashes, told from the reports alone: a recovering ticket resumes at a step if and only if that step is an end's timely report of its token, the other end has reported it since the last start, and the connections of both latest reports are live and still theirs; then the pair is a member and the guest's connection holds the grant |
| `RecoveryReturns.RunRecovering` | src/session_recovery.cpp:198-212 | over every run: a ticket that no join has replaced is recovering if and only if its ends have not so come together since the last start |
| `RecoverySafety.StepSafe` | src/session_recovery.cpp:130-240 | every step, including a restart, keeps those authorizations |
| `SessionRecoveries.SessionRecovery.constructor` | src/session_recovery.cpp:40-83 | tickets are loaded as recovering, sessions without one as legacy, tickets without a session deleted |
| `SessionRecoveries.SessionRecovery.Remove` | src/session_recovery.cpp:99-104 | ticket, saved copy and legacy entry go |
| `SessionRecoveries.SessionRecovery.ConfirmLegacy` | src/session_recovery.cpp:106-116 | both identities are routed to live connections of theirs in time, and the row exists |
| `SessionRecoveries.SessionRecovery.Login` | src/session_recovery.cpp:130-142 | the erasing loop confirms exactly the legacy sessions of this user that can be |
| `SessionRecoveries.SessionRecovery.Issue` | src/session_recovery.cpp:144-170 | a join supersedes legacy and old tickets; only two capable ends get a new one |
| `SessionRecoveries.SessionRecovery.Report` | src/session_recovery.cpp:172-212 | token, identity, row and deadline are checked; then the session ends, or its end is ready and it may resume |
| `SessionRecoveries.SessionRecovery.Resume` | src/session_recovery.cpp:198-211 | with both ends ready on connections still theirs, the room, membership and grant are restored |
| `SessionRecoveries.SessionRecovery.Expire` | src/session_recovery.cpp:214-240 | both erasing loops, with the releases inside them |
| `SignalServers.BoundedExecutor.Submit` | src/bounded_executor.h:32-39 | FIFO up to the capacity, lifecycle jobs also in the reserve; refused once stopping |
| `SignalServers.BoundedExecutor.Take` | src/bounded_executor.h:50-59 | the oldest job; a stopped executor still runs what it holds |
| `SignalServers.SignalServer.constructor` | src/signal_server.cpp:239-249 | the reserve is sized from connections and hashing workers |
| `SignalServers.SignalServer.QueueSessionCleanup` | src/signal_server.cpp:522-552 | a connection dies once; if it was open, one cleanup job is queued as lifecycle work |
| `SignalServers.SignalServer.CloseConnection` | src/signal_server.cpp:585-590 | only a live listed connection is closed |
| `SignalServers.SignalServer.FinishConnection` | src/signal_server.cpp:555-583 | the connection is cleaned up and no longer listed |
| `SignalServers.SignalServer.AcceptNext` | src/signal_server.cpp:383-402 | no accept is started while listed connections plus pending cleanups reach the limit, 128 handshakes are open, or file descriptors are short |
| `SignalServers.SignalServer.OnMessage` | src/signal_server.cpp:1070-1102 | at most 128 messages of a connection are pending; otherwise, or when the worker is full, it is closed |
| `SignalServers.SignalServer.DispatchMessage` | src/signal_server.cpp:1104-1123 | handled at once, deferred while the connection's hash is pending, or lost over the global limit |
| `SignalServers.SignalServer.SubmitCredentialWork` | src/signal_server.cpp:1125-1156 | one pending request per connection; enqueued, then pumped |
| `SignalServers.SignalServer.FinishCredentialRequest` | src/signal_server.cpp:1158-1174 | the drain loop, mutually recursive with dispatching and pumping, terminates and handles the deferred messages in order |
| `SignalServers.SignalServer.Pump` | src/signal_server.cpp:1226-1246 | prune, expiry callbacks that drain and may enqueue, schedule; no pump inside a pump |
| `SignalServers.SignalServer.StartCredentialWork` | src/signal_server.cpp:1176-1208 | each started request goes to its hashing worker |
| `SignalServers.SignalServer.RunCleanup` | src/signal_server.cpp:527-548 | the request is canceled and the deferred messages dropped with their counts |
| `SignalServers.SignalServer.RunCompletion` | src/signal_server.cpp:1191-1201 | the worker is freed, the connection drained, and the queue pumped unless stopping |
| `SignalServers.SignalServer.RunNext` | src/bounded_executor.h:50-66 | the application worker runs its next job as `Step` says |
| `ServerReserve.LaunchMatched` | src/signal_server.cpp:1204-1207 | a scheduled request always finds its hashing worker's queue empty |
| `ServerReserve.CleanUpReserved` | src/signal_server.cpp:522-552 | a dying connection passes its place in the reserve to its cleanup job |
| `ServerReserve.AcceptReserved` | src/signal_server.cpp:395-396 | admission keeps live connections plus pending cleanups, with the accept under way, within the limit |
| `ServerReserve.StepReserved` | src/bounded_executor.h:32-39 | every event keeps: normal jobs ≤ capacity, connections + cleanups ≤ limit, one completion owed per finished hash |
| `ServerReserve.ReserveSuffices` | src/signal_server.cpp:241-244 | even with every place promised taken, two places of the reserve are left |
| `ServerReserve.RunNeverRefuses` | src/bounded_executor.h:32-39 | over every run no lifecycle submission is refused, and an idle slot's credential worker has an empty queue |
| `ServerOrder.DrainSettles` | src/signal_server.cpp:1158-1174 | a drain ends with nothing deferred or with a request in the queue to wait for |
| `ServerOrder.PumpOrderly` | src/signal_server.cpp:1143-1146 | a pump, with the callbacks it runs, keeps every connection in order |
| `ServerOrder.StepInPlace` | src/signal_server.cpp:1070-1207 | every event keeps every connection in order |
| `ServerOrder.RunKeepsOrder` | src/signal_server.cpp:1070-1207 | over every run: handled messages are a subsequence of arrivals in order, complete while the connection lives and lost none; deferred messages imply a request in the queue; the global counter is the sum of deferred lengths and at most 1024; pending counts are exact and at most 128 |
| `ServerDeadlines.RunKeepsAllowance` | src/signal_server.cpp:1131-1152 | over every run, on the history of acceptances: a request expires only on a live connection and not before its acceptance plus the configured timeout, starts only on a live one and before it, and is canceled only on a dead one |
| `ServerDeadlines.RunLeavesNoneLate` | src/signal_server.cpp:1152-1200 | over every run: whenever the pump timer has fired, a hash has ended or a message has made a request, no request of a dead connection waits and none at or past its acceptance plus the timeout; if a worker is idle, a source that waits has had its share of starts or was crowded out |
| `ServerHolds.RunHoldsBack` | src/signal_server.cpp:1158-1174 | over every run: a connection that waits for its hash goes on waiting and handles no message until the hash's completion runs or the request expires |
| `ServerHolds.RunLosesOnly` | src/signal_server.cpp:1104-1116 | over every run: a connection loses messages only when one arrives at the worker while it waits and 1024 messages are deferred |
| `ServerRequests.RunAnswers` | src/signal_server.cpp:1125-1156 | over every run each question a connection's handled messages ask is a request accepted or a refusal counted in `full` or `source_full`, and no request is accepted that was not asked; whoever has a request in the queue is waiting for it |
| `ServerAttendance.RunAttends` | src/signal_server.cpp:383-600 | over every run who is listed, has opened and lives follows from the events alone: admitted, opened, closed, told to go, flooding, the server's stop |
| `ServerCleanups.RunCleansUp` | src/signal_server.cpp:522-552 | over every run: cleanups of a connection queued and cleanups run are together the times it died open, at most once |
| `ServerCleanups.AcceptsWhen` | src/signal_server.cpp:383-402 | an accept is started if and only if the connections listed and cleanups pending leave room, fewer than 128 handshakes are open and descriptors are not short |
| `ServerCleanups.RunReceives` | src/signal_server.cpp:1070-1102 | over every run: a message to a live connection is taken in if and only if fewer than 128 of its messages are deferred or queued and the worker has room; otherwise the connection dies |
| `ServerCleanups.RunStops` | src/signal_server.cpp:889-905 | over every run: a stop ends every listed connection |
| `ServerFairness.OutsideQueue` | src/signal_server.cpp:383-600 | network events leave the credential queue alone |
| `ServerFairness.RunServesFairly` | src/signal_server.cpp:1125-1207 | over every run of the server the queue inside it is fair, starts a source's requests in order, gives each request one fate, and starts at most 2·limit per minute of one source |
| `DeviceRows.DeviceStore.RegisterDevice` | src/device_db_manager/device_db_manager.cpp:682-777 | the first free of at most ten generated ids gets a row; formats are checked first |
| `DeviceRows.DeviceStore.BindLoginPublicKey` | src/device_db_manager/device_db_manager.cpp:814-833 | a key is bound only to a keyless row with the verified password; the reconnect credential goes |
| `DeviceRows.DeviceStore.Commit` | src/device_db_manager/device_db_manager.cpp:835-862 | compare-and-set of the password; a change drops the reconnect credential |
| `DeviceRows.DeviceStore.RemoveDevice` | src/device_db_manager/device_db_manager.cpp:882-909 | the row and, by trigger, its credential go |
| `DeviceRows.DeviceStore.IssueReconnectCredential` | src/device_db_manager/reconnect_credential.cpp:46-69 | a keyless persistent device gets one credential, replacing the previous |
| `DeviceRows.DeviceStore.VerifyReconnectCredential` | src/device_db_manager/reconnect_credential.cpp:71-98 | format, row, key, digest and expiry decide; nothing is written |
| `DeviceRows.DeviceStore.RevokeReconnectCredential` | src/device_db_manager/reconnect_credential.cpp:100-110 | the credential is deleted |
| `DeviceHistory.TokenVerifiesIff` | src/device_db_manager/device_db_manager.cpp:387-405 | over every run, with any digest that tells tokens apart: a token verifies if and only if it is the last one issued to that device, unexpired, with no password change, key binding, removal or revocation since |
| `DeviceHistory.KeyStays` | src/device_db_manager/device_db_manager.cpp:814-833 | over every run a bound login key is never replaced while its device exists |
| `DevicePasswords.RunRows` | src/device_db_manager/device_db_manager.cpp:814-862 | over every run a device's password and key follow from the registrations, bindings, changes and removals asked for alone |
| `DevicePasswords.RunCompareAndSet` | src/device_db_manager/device_db_manager.cpp:835-862 | over every run a password change or key binding succeeds if and only if the expected password is the one the run so far has left, and the rest of its conditions hold: a stale one is refused |
| `DevicePasswords.RunRegisters` | src/device_db_manager/device_db_manager.cpp:682-777 | over every run a registration is answered with an id if and only if it is in order and that id is the first, among at most ten generated ones and before any empty one, that no device has after the run so far |
| `DevicePasswords.RunIssues` | src/device_db_manager/reconnect_credential.cpp:46-69 | over every run a reconnect credential is issued if and only if the device is there, has no key, and its id is neither a temporary controller's nor an alias |
| `Retention.RetentionStore.CleanupExpiredDevices` | src/device_db_manager/device_db_manager.cpp:955-1077 | the transaction removes one batch of identities, oldest first, with their clones, associations and activity, and one batch of orphan associations; it counts the rows deleted from each table; `more` says whether a batch was full; a policy out of range is refused |
| `Retention.RetentionStore.RemoveIdentity` | src/device_db_manager/device_db_manager.cpp:1016-1036 | the deletions for one identity, table by table; the activity of a temporary identity stays |
| `Retention.SelectedOldestFirst` | src/device_db_manager/device_db_manager.cpp:994-994 | the batch takes the identities that expired first, ties by id |
| `RetentionFacts.CandidatesAre` | src/device_db_manager/device_db_manager.cpp:966-993 | an identity is a candidate if and only if no live presence, recent device or session protects it and it has a row of its own, or its clone has one |
| `RetentionFacts.CandidatesLeft` | src/device_db_manager/device_db_manager.cpp:1016-1036 | dropping candidates leaves exactly the other candidates, less those whose only row was dropped as another identity's |
| `RetentionRuns.BatchWhole` | src/device_db_manager/device_db_manager.cpp:966-1065 | a batch does not change what unbounded cleanup would leave if and only if whatever an identity spared by the batch would take is taken by another candidate; for any tables |
| `RetentionRuns.BatchDone` | src/device_db_manager/device_db_manager.cpp:1063-1063 | a batch that reports no more has left exactly what unbounded cleanup would |
| `RetentionRuns.BatchShrinks` | src/device_db_manager/device_db_manager.cpp:1063-1063 | a batch that reports more has removed a row |
| `RetentionRuns.BatchesEqualWhole` | src/device_db_manager/device_db_manager.cpp:955-1077 | repeating batches of any size at one cutoff ends, whatever the tables; it leaves exactly what one unbounded cleanup does if and only if each batch meets the condition of `BatchWhole` |
| `RetentionRuns.UnchainedEqual` | src/device_db_manager/device_db_manager.cpp:955-1077 | when no candidate's clone is a candidate of its own, batches of every size leave exactly what one unbounded cleanup does |
| `RetentionRuns.PlainUnchained` | src/device_db_manager/device_db_manager.cpp:970-977 | tables without an id that starts with `C-C-` are such tables |
| `RetentionPairs.EverySizeSameRows` | src/device_db_manager/device_db_manager.cpp:955-1077 | batches of every size remove exactly the device and presence rows one unbounded cleanup does if and only if no row of a clone can be stranded |
| `RetentionPairs.PairedIff` | src/device_db_manager/device_db_manager.cpp:966-993 | base and clone go together, only when all their rows are old and no session refers to them, if and only if no identity is stray: protected, with an unprotected clone that has a clone itself |
| `RetentionPairs.WholeRemovesOnlyExpired` | src/device_db_manager/device_db_manager.cpp:966-993 | then every row removed goes with its whole identity, all old and in no session |
| `RetentionPairs.WholeRemovesExpired` | src/device_db_manager/device_db_manager.cpp:966-993 | an old identity that nothing protects does go, whatever the tables |
| `RetentionPairs.WholeKeepsIff` | src/device_db_manager/device_db_manager.cpp:955-1062 | which presence rows, device rows, activity records and associations unbounded cleanup keeps, told row by row from the ages, the presence and the sessions |
| `RetentionPairs.CloneOfCloneUnpairs` | src/device_db_manager/device_db_manager.cpp:970-984 | a table with a stray identity: a row goes although its identity is online |
| `RetentionPairs.RowStays` | src/device_db_manager/device_db_manager.cpp:970-994 | a table with a strandable row: some batch size leaves a row that unbounded cleanup removes |
| `RetentionPairs.AssociationStays` | src/device_db_manager/device_db_manager.cpp:1007-1036 | a table of which some batch size leaves an association that unbounded cleanup removes |

## Left out

- BatchWhole: its condition looks at one call; for the associations no condition on the tables alone, over all batch sizes, is stated. For the device and presence rows `EverySizeSameRows` is one.
- RunLedger: starts from tables such as the server itself writes: a row's host names its room, is not its guest and is not a temporary controller, and a saved ticket names that host. Every step keeps this, from empty tables on.
- StepSessions: leaves out starts and reports that a session is alive; `BootAgrees`, `RestartKeepsSessions` and `RunResumesIff` say what those do.
- RunLeavesNoneLate: speaks of the moments at which the pump runs; how far apart the pump timer's are is not modeled.
- RunRestoresOnlyJoins: counts the rows found by the first start as joined, since what happened before it is unknown.
- RunServesFairly: assumes that the job clock does not run backwards; the server uses a steady clock.
- RunKeepsOrder: a message over the deferral limit is lost and its connection's close requested; what the closed connection's other messages do is covered, what the client sees is not.
- SelectedOldestFirst: among orphan associations of equal age the query leaves the order open; the model takes them in key order.
- AcceptNext: whether file descriptors are short, or could not be sampled, is an input.
- DispatchMessage: what a message does outside the queue (joins, signals, replies) is the subject of the rooms machine; here it either asks for a hash or not.
- BoundedExecutor.Stop: joining the worker thread and the error callback are not modeled; after it no submission succeeds.
- RunNeverRefuses: covers the time before the application worker itself is stopped, when its submissions are refused by design; the two halves of the server's shutdown happen in one step.
- Login: the check of credentials is an input, and the answers sent to clients are not modeled.
- ExpireInactiveSessions: the timeout callback is the list of ended connections it returns; its place among the batched notifications is not modeled. The thread that would call it is left out, since the server constructs the manager with automatic expiry off.
- Exceptions out of notification callbacks, and failing SQL statements.
- Liveness of a connection flipping in the middle of one application job: it changes between jobs only.
- Wait and execution time maxima in the queue's statistics, diagnostics, `Status` counts and snapshots: counters that nothing reads back.
- The order of guests within a restored room: the query leaves it open; the model uses key order.
- The password-change result cache: a bounded map without influence on the state modeled here.
- Presence rows, client information, the recording of daily activity, announcements and the administrator's reports.
- Cleanup of temporary controllers: for the credentials it is one more removal of a device row.
- Ids containing commas, which the session listing would split.
- The administrator's listing limit of 10000 rows in the check for recovering sessions.
- WebSocket, TLS, HTTP, JSON validation, ICE and TURN credentials, logging.
- Integer widths: the counters are 64 bits wide and do not overflow in practice; time below one tick is not modeled.
