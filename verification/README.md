# gatho: rooms, clients, servers and drivers

A Dafny model of the state-keeping parts of gatho, and proofs about it:

- **Room** (`Room*.dfy`): the session engine of a room together with its
  websocket transport. Tracked clients, the session-token index, per-client
  reliable buffers, reconnection windows, topic subscriptions and the generation
  guard, as one state machine over transport events, timers, user calls and the
  continuations of `onAuth`, `onDrop` and `onShutdown`.
- **Client** (`Client*.dfy`): the connection machine: connecting, open,
  reconnecting, closed, its buffer and its bounded retry loop.
- **The pair** (`Joint*.dfy`, `Parts.dfy`): one client's machine and its room's
  engine in one run, with the sockets between them, over which requests, frames
  and closes arrive late, in order per socket, or not at all.
- **Server** (`Server*.dfy`): the control loop against the driver's records:
  pushes, heartbeat ticks that may overlap, snapshots, stall sweep, re-assertion
  after a reap, destroy sweep, reconcile and the pruning of attempts.
- **Drivers**: `Store.dfy` is the plain maps; `DriverOps.dfy` lists the operations of
  a driver, with what each does to the in-memory driver's maps and answers from
  them; `MemoryDriver.dfy` is that driver; `Redis*.dfy` are the Redis keys, whose
  indexes outlive expired hashes, what each command sequence does to them, when
  that is what the in-memory driver does, and runs of both side by side.
- **Around them**: `ReapRecovery.dfy` (one whole tick against the in-memory
  driver), `ReconcileClients.dfy`, `WaitForRoom.dfy` with the sdk's createRoom,
  `Punctuate.dfy`, `Canary.dfy`, `FrameParser.dfy`, and the cursor demo
  (`Cursor*.dfy`): its room, its cid allocator and the page's replica.

Each part has a specification on values (a state and its step functions), a
class whose methods update fields in place and are tied to those functions by
`old(...)`, and lemmas over all runs. Most of these say what never goes wrong.
`ClientOutcomes`, `RoomOutcomes`, `ServerOutcomes`, `ServerVerdicts`,
`ServerStarts`, `DriverOutcomes`, `WaitVerdicts`, `CursorHistory` and `JointHeals` say
what does happen: what each event leads to and when it does not, in terms of the
states and of the run rather than of the functions that specify it, and how a lost
connection comes back. In the room, client, server, canary, punctuator, cursor and
waiting parts a method `Handle` (`HandleRoomEvent`, `AcceptAnswer`), and in the
drivers `Perform`, connects the class with the state machine the run lemmas are
about; the small handlers it calls have no row of their own in the table.
`dafny verify dfyconfig.toml` checks everything.

## Where the code and its comments or hopes part

- **A refused open does disturb the session it is refused for.** The comment at
  `src/room/start.ts:651-660` says that a second open with the same seat is
  rejected so the existing session is never disturbed, and
  `tst/unit/room-auth-identity.test.ts:194` that a held seat is not either. The
  transport has by then stripped the live socket of its subscriptions and mapping
  and put the refused one in its place (`src/room/transport/ws.ts:100-126`). When
  the room's own 4000 closes the refused socket, the generation guard takes it for
  the current one and the room lets the existing client go, whether it was
  connected or in its reconnection window
  (`RoomTakeover.RefusedOpenCostsTheSeat`). `RoomTakeover.UndisturbedIff` and
  `RefusedUpgradeDisturbsIff` say exactly when a session survives a refusal.
- **A session parameter may be a client id.** A parameter that is no valid
  session is taken for a client id (`src/room/start.ts:592-610`), and client ids
  are public, as in the joined message of the repository's `README.md:321`. The id
  of a client in its reconnection window resumes that client without its token
  (`RoomTakeover.ParameterResumesIff`); the id of a connected one is refused, with
  the consequences above (`RoomTakeover.TakenOverIff`).
- **A client whose socket dies during its `onAuth` is admitted on the dead
  socket** and never hears of it: `RoomOrphans.AdmittedOnDeadSocket`.
- **Two overlapping opens of one client id are both admitted.** The seat is checked
  before `onAuth` (`src/room/start.ts:661`) and taken after it
  (`src/room/start.ts:687-706`), so the one-shot seat and the unleaked token of the
  comment at `src/room/start.ts:651-660` fail when a second open comes while the
  first one's `onAuth` is pending. The first client stays alive but is no longer in
  the map, and its token still leads to the id (`RoomAdmissions.OverlappingOpens`,
  `AdmittedTwice`). Not even the end of a stop lets it go (`StopForgetsEarlier`):
  only its own handle, timers and onDrop continuations do, and they take the second
  client out of the map with it (`FirstUntracksSecond`). Nothing else breaks the rule that a joiner is
  alive iff tracked: `RoomAdmissions.OneLeaverIffNeverReadmits`.
- **A second `allowReconnection` while a window is open leaks the first timer**
  (`src/room/start.ts:264-274`), which later evicts the client even if it is
  connected again (`RoomWindows.SecondWindowLeaksIff`). That and an earlier
  admission of the same id with something under way are the only ways a connected
  client is evicted without anybody asking: `RoomWindows.ConnectedSurvivesIff`.
- **An `onDrop` that throws holds the seat.** The catch at
  `src/room/start.ts:838-840` only logs, so the client stays tracked with no timer
  (`RoomRuns.HeldSeatMeansThrew`, `RoomRuns.SeatGivenUpIffOnDropReturned`).
- **Reap recovery ignores roomReady's answer** (`src/server/server.ts:600-603`).
  A re-asserted room whose ready call comes after the ttl is counted as restored
  although its record has lapsed; `ReapRecovery.HeartbeatTick` proves restoration
  iff the call is in time.
- **Client reconciliation can take a client from another room**, since the upsert
  looks at no room: `ReconcileClients.OtherRoomsUntouchedIff`.
- **A wait's timeout may be late by the ttl margin and no more**
  (`src/sdk/index.ts:118-137`): `WaitForRoom.RemovedMeansRemovedIff`.
- **The two drivers differ.** Redis forgets a lapsed reservation or room at once. In
  memory a reservation stays until the 10 s prune, a lapsed room until the next
  sweep (`src/driver/memory.ts:155-187`), which then takes clients along that
  connected to it meanwhile, and `getServer` still lists it. The in-memory timer
  deletes silent servers; in Redis only a reap does. In Redis a live hash that is
  registered again keeps its endpoint and secret, a reservation with a ttl of zero
  or less is gone, a server without a record can be reaped, and a client may
  outlive its room. The two check the ttl and the server of a registration in
  opposite order. `RedisRuns.MatchesMapsIff` and `AnswersMatchIff` say exactly when
  runs of the two show and answer the same; what is read through the Redis
  indexes is right in every run (`RedisRuns.ReadsAreExact`).
- **The scan for a free cid never ends with 65535 cursors**:
  `CursorProofs.ScanEndsIffRoomLeft`.

## Assumptions

They are guards on environment steps (`Enabled` in each part) or preconditions:

- Room: sockets and tokens are fresh, and `upgrade` with `reconnect` is one step.
  That is all that `Possible` asks, and the results of `RoomTakeover`,
  `RoomAdmissions`, `RoomOrphans`, `RoomWindows` and `RoomWires` hold of runs of such
  steps, an admission that a later one has replaced (`earlier`) going on with its
  own handle, timers and continuations. The room invariant and the results of
  `RoomRuns` are about orderly runs (`Enabled`), which leave out an upgrade for a
  client that is connected or being authorised, the death of a socket or the end of
  a stop during an `onAuth`, and a second window over an open one; no admission is
  replaced in them.
  A message handed to a socket that is closing but whose close event is still to
  come counts as handed over and is kept in `lost`.
- The pair: an orderly room, in which nobody else presents the client's id or
  token, and no random token is anybody's client id.
- Server: the clock does not go back. A push arrives less than the attempt
  retention after the registration. The catch of a rejected startup runs before
  another message of that room. A runner's `spawn` does not throw, and its `kill`
  does not call back at once. At most one tick is current, which is
  `Punctuate.AtMostOneCurrent`; ticks may overlap. A re-assertion counts as a
  registration, so at-most-once spawning is claimed for rooms that were not
  re-asserted.
- `ReapRecovery` and `ReconcileClients`: one call after another, nothing in between.
  In `ServerRuns` anything may fall between the calls of a tick.
- Drivers: each operation is one step at one instant, and in a run of both the clocks
  agree and do not go back. Ids are not reused: a room id is registered for one
  server only and a client id belongs to one room only. Single operations are
  specified without that.
- Canary and punctuator: timers are exact where a bound on time is stated.

## Model

| member | source | states |
|---|---|---|
| RoomRuns.ReliableFifo | src/room/start.ts:251-803 | in every reachable state, what was handed to a tracked client's successive sockets followed by its buffer is exactly the reliable messages addressed to it since it joined, in order; an open socket has lost nothing |
| RoomBroadcast.FastPathRefinesLoop | src/room/start.ts:434-466 | publish plus buffering for the disconnected equals, on every socket, buffer and index, the per-client loop with nobody excluded |
| RoomBroadcast.OpenSubscribedIffCurrent | src/room/transport/ws.ts:100-213 | an open socket is subscribed to the broadcast topic iff it is some tracked client's current socket |
| RoomRuns.BroadcastPathsAgree | src/room/start.ts:420-467 | the two broadcast paths agree in every reachable state |
| RoomRuns.SessionIndexExact | src/room/start.ts:687-786 | the session index maps t to c iff c is tracked with current token t, through rotation, eviction and stop |
| RoomRuns.BufferAccounted | src/room/start.ts:338-403 | bufferBytes is the sum of the buffered sizes and at most the cap; a connected or departed client has no buffer; a pending window timer means a tracked client without a socket |
| RoomRuns.OneJoinerOneLeaver | src/room/start.ts:327-363 | a client is alive iff tracked; onLeave and client-disconnected have each fired exactly once iff it is no longer tracked, over expiry, overflow, disconnect, close, drop and stop |
| RoomRuns.ConnectedSurvives | src/room/start.ts:264-279 | no reconnection timer and no late onDrop continuation, its own included, evicts or touches a client that is connected |
| RoomRuns.HeldSeatMeansThrew | src/room/start.ts:820-840 | a disconnected client with no window open and no onDrop running has had an onDrop that threw |
| RoomRuns.SeatGivenUpIffOnDropReturned | src/room/start.ts:823-840 | when the last pending onDrop settles without a window, the seat is given up iff onDrop returned; if it threw, the client stays tracked with no timer |
| RoomOutcomes.BroadcastReachesIff | src/room/start.ts:420-467 | in every reachable state of a live room a broadcast puts exactly the message on the open socket of each connected client that is not excluded, keeps it for each disconnected one if reliable, or evicts that one for overflow; an excluded client's record, seat, token and sockets stay as they were |
| RoomOutcomes.SendReachesOne | src/room/start.ts:251-263 | a send through a handle does that for its client and leaves every other alone; for a client that has left, or in a stopping room, it does nothing |
| RoomOutcomes.OpenWaitsIff | src/room/start.ts:661-672 | an open awaits its onAuth with nothing sent iff its id is not tracked; otherwise it gets an auth error and a close |
| RoomOutcomes.AuthSeats | src/room/start.ts:687-726 | after ok the client is tracked on its socket, which gets exactly a session frame; the token leads to it |
| RoomOutcomes.RejectionSeatsNobody | src/room/start.ts:681-685 | after a rejection the socket gets an auth error and is closed; nobody's seat or token changes |
| RoomOutcomes.ReconnectBringsBackIff | src/room/start.ts:753-806 | a parameter brings back exactly the waiting client it stands for: everything kept for it in order, then the new session, on the new socket, and the old token void; one that stands for nobody gets an auth error and a close, and no seat changes |
| RoomOutcomes.LeaveCloses | src/room/start.ts:732-741 | a leave message closes the socket it came on iff that is a client's current one |
| RoomOutcomes.CloseDropsIff | src/room/start.ts:808-826 | the close of a client's current socket ends its seat iff it was consented or there is no onDrop; otherwise the client waits without a socket and its onDrop runs; other clients do not notice |
| RoomOutcomes.DropEndsSeatIff | src/room/start.ts:823-840 | an onDrop that returns ends the seat iff the client is away without a window; one that throws ends none |
| RoomOutcomes.TimerEndsSeat | src/room/start.ts:264-275 | a window's timer belongs to a client that is away, and ends its seat and nobody else's |
| RoomOutcomes.DisconnectEndsSeat | src/room/start.ts:276-280 | a disconnect through the handle ends a tracked client's seat and closes its socket, and does nothing the second time |
| RoomOutcomes.WindowOpensIff | src/room/start.ts:264-275 | allowReconnection starts a timer iff the client is tracked and away |
| RoomOutcomes.StoppingIsSilent | src/room/start.ts:436-437 | once a stop has begun, broadcasts and sends do nothing |
| RoomOutcomes.StopLetsAllGo | src/room/start.ts:902-940 | after a stop nobody is tracked, no token stands, everyone tracked before has left once, and no connection is open |
| RoomTakeover.RefusedUpgradeDisturbsIff | src/room/transport/ws.ts:100-213 | in every run, any upgrades included: a refused upgrade changes no seat when it is refused; when its socket closes, after whatever happened in between, it changes none iff its client id is not tracked by then or a later upgrade took the mapping over; otherwise that client is thrown out (code 4000 or no onDrop) or loses its socket and is dropped |
| RoomTakeover.UndisturbedIff | src/room/start.ts:651-665 | in an orderly room a session is left alone through a refused upgrade for its id and that socket's close iff it had no socket to be stripped of, and is not tracked by the close or was taken over by a later upgrade |
| RoomTakeover.RefusedOpenCostsTheSeat | src/room/start.ts:661-665 | a second open of any tracked client id, connected or in its reconnection window, closed by the room's own 4000, leaves the client untracked with its one onLeave fired; with another code and an onDrop it leaves it without a socket |
| RoomTakeover.TakenOverIff | src/room/transport/ws.ts:100-126 | an upgrade takes a connected client's socket out of the maps and off the topic iff it is an open with that client's id, or a session parameter that is that id and no waiting client's token |
| RoomTakeover.RefusedUpgradeSilencesIff | src/room/transport/ws.ts:100-126 | after a refused upgrade for a tracked client id the two broadcast paths agree iff that client had no open socket |
| RoomTakeover.ParameterResumesIff | src/room/start.ts:592-610 | a session parameter resumes client c iff c waits, and the parameter is c's current token or is c's own id and no other waiting client's token |
| RoomAdmissions.OneLeaverIffNeverReadmits | src/room/start.ts:661-706 | over any run, overlapping opens included: every admission is throughout alive iff tracked, and has left once iff not, iff no onAuth ever comes back with ok for an id that is tracked by then |
| RoomAdmissions.LeavesAreCounted | src/room/start.ts:327-363 | in any run an admission, superseded or not, has had its onLeave and client-disconnected once iff it is dead, and a tracked client is alive |
| RoomAdmissions.OverlappingOpens | src/room/start.ts:661-706 | in any state of any run: when two onAuths that pend for one id both come back with ok, the second record takes the first one's place, the first stays alive, and both tokens lead to the id |
| RoomAdmissions.FirstUntracksSecond | src/room/start.ts:327-363 | disconnecting through the first client's handle takes the second, connected one out of the map, alive and without its onLeave |
| RoomAdmissions.AdmittedTwice | src/room/start.ts:651-714 | a run that fails it, for any client id: two opens pend, both are let in; the first client is alive and not tracked, and its token still leads to the id |
| RoomOrphans.AdmittedOnDeadSocket | src/room/start.ts:667-726 | a client whose socket dies during its onAuth is tracked on the dead socket iff onAuth comes back with ok, and stays so, without a frame, an onDrop, a window or an onLeave, until user code disconnects it, the room stops, or another upgrade comes for its id |
| RoomWindows.ConnectedSurvivesIff | src/room/start.ts:264-274 | in any run, a connected client survives every timer and onDrop continuation that may come iff no timer is left running from a window of its own that a second allowReconnection was called over, and no live earlier admission of its id has a timer running, or an onDrop under way and no socket |
| RoomWindows.SecondWindowLeaksIff | src/room/start.ts:770-774 | each allowReconnection of a waiting client adds a running timer; a reconnect after it cancels them all iff there was none before |
| RoomWindows.StraysNeedASecondWindow | src/room/start.ts:264-274 | in orderly runs no such timer exists |
| RoomWires.StepWires | src/room/start.ts:636-945 | every possible event keeps the wiring on which the results about any run rest; apart from an admission, none makes a client alive without being tracked or the reverse |
| RoomVerbs.EarlierVerb | src/room/start.ts:251-363 | whatever a superseded admission's handle, timers or onDrop continuations do, no latest record changes, and its id leaves the map iff that admission dies of it |
| RoomRuns.StepKeeps | src/room/start.ts:636-945 | every orderly step keeps the whole room invariant: all of them but an upgrade for a connected client or one being authorised, a socket's death or the end of a stop during an onAuth, and a second allowReconnection over an open window |
| RoomSteps.ReconnectKeeps | src/room/start.ts:753-806 | upgrade and reconnect as one step keep it for every parameter that does not stand for a connected client or one being authorised: the buffer is flushed in order to the new socket before the session frame, the token is rotated, anything else is refused |
| RoomSteps.WsCloseKeeps | src/room/transport/ws.ts:186-213 | a socket's close event, behind the generation guard, keeps it for the closing client and every other |
| RoomBroadcast.MulticastKeeps | src/room/start.ts:459-466 | sending to any set of clients, some of which overflow and are evicted, keeps it for all clients, tokens and sockets |
| RoomBroadcast.SendIsMulticast | src/room/start.ts:251-263 | a send through the client handle is the broadcast loop over that one client |
| RoomEngine.Engine.Publish | src/room/transport/ws.ts:228-237 | exactly the open subscribers get the frame, each once |
| RoomEngine.Engine.BroadcastAll | src/room/start.ts:434-446 | one publish and the loop over the disconnected together have the effect of the specified fast path |
| RoomEngine.Engine.BroadcastExcept | src/room/start.ts:448-466 | the loop reaches every tracked client outside the exclusion set exactly once, evicting those that overflow, and touches no other |
| RoomEngine.Engine.FlushBuffer | src/room/start.ts:788-793 | the loop hands the whole buffer to the socket in order and leaves it empty |
| RoomEngine.Engine.FinishStop | src/room/start.ts:902-940 | map and index cleared, each tracked client let go exactly once, every connection closing |
| RoomEngine.Engine.Handle | src/room/start.ts:636-945 | every possible event, orderly or not, an earlier admission's included, takes exactly the specified step and keeps the wiring between records, maps and sockets; an orderly one keeps the whole room invariant |
| ClientProofs.SendsInOrder | src/client/index.ts:177-193 | until it closes, the reliable messages handed to its sockets one after the other, followed by the buffer, are exactly those send accepted, in order |
| ClientProofs.ClosedIsFinal | src/client/index.ts:243-252 | closed is absorbing; onClose has fired exactly once iff closed, and its cause never changes |
| ClientProofs.MachineInvariant | src/client/index.ts:285-457 | open means an empty buffer; outside closed the buffer is accounted for and at most 1 MiB; while reconnecting exactly one of a backoff timer or an attempt's socket is pending; only the current socket can still speak |
| ClientProofs.AttemptsAreBounded | src/client/index.ts:429-457 | an outage opens at most ten sockets, and 'reconnect-failed' means all ten were opened |
| ClientProofs.OutageIsUsedUp | src/client/index.ts:386-457 | while reconnecting, every timer and every failed attempt strictly lowers a bounded measure until the connection closes |
| ClientProofs.CausesAreTrue | src/client/index.ts:243-252 | cause 'consented' means the app called close; cause 'auth' means the room refused the initial join |
| ClientOutcomes.DropReconnectsIff | src/client/index.ts:376-414 | an open connection whose socket closes is closed for good iff the code is 4000, or in onDrop the app closes it or sends more than fits; otherwise it is reconnecting with the backoff timer set, no socket, one attempt counted, the app's sends buffered in order and nothing told to onClose |
| ClientOutcomes.AttemptIsMade | src/client/index.ts:429-457 | the backoff timer makes a new socket that can speak, keeping the buffer |
| ClientOutcomes.FailedAttemptRetriesIff | src/client/index.ts:386-390 | an attempt that fails is followed by another iff it was not the tenth |
| ClientOutcomes.SessionOpens | src/client/index.ts:285-329 | the session message opens a connecting or reconnecting connection on its socket, with the buffer on the wire in order |
| ClientOutcomes.OutageHeals | src/client/index.ts:401-457 | drop, attempt and session: the connection is open on the new socket, which carries what the app sent in onDrop |
| ClientOutcomes.SendOutcome | src/client/index.ts:475-492 | a message goes on the wire of an open connection; a reliable one is buffered while not established, or closes the connection iff it is too much; anything else is dropped |
| ClientOutcomes.ClosesIff | src/client/index.ts:243-530 | which events close a connection, in every reachable state, and with which cause: an auth rejection iff an auth error had come before the close, consented iff the app had called close, and so on |
| ClientProofs.CallsKeep | src/client/index.ts:406-414 | whatever the app sends or closes inside onDrop, in any number and order, keeps the invariant |
| ClientConnection.Connection.FlushTo | src/client/index.ts:187-193 | the loop hands the buffer to the socket in order and empties it |
| ClientConnection.Connection.Handle | src/client/index.ts:243-530 | for every event the machine takes exactly the specified step and keeps the invariant |
| JointProofs.RoomToApp | src/client/index.ts:243-329 | client machine, room engine and the sockets between them in one run, in which requests, frames and closes arrive late or not at all: the app has got the reliable messages addressed to its client in order, none twice, also after the client has left; with the buffer it has all of them iff it has heard all that each of its sockets was handed |
| JointProofs.AppToRoom | src/room/transport/ws.ts:157-184 | in the same runs, until the client closes, the room's onMessage has got the reliable messages the app sent in order, none twice, through the generation guard and across reconnects; with the client's buffer all of them iff each socket's messages were all accepted |
| JointHeals.LostConnectionHeals | src/room/start.ts:753-796 | from every reachable state in which the connection is lost and the seat held, the next attempt, its request and the frames the room sends bring it back: open on both sides with the new token, the app having got all that was kept for it, the socket carrying all the app had sent |
| JointHeals.ReadIsTakenIff | src/room/transport/ws.ts:157-184 | the room's code gets a reliable message that arrives iff it came on the socket the client is on |
| JointHeals.SessionIsHeard | src/client/index.ts:285-329 | a session frame that the client hears opens it on that socket with that token |
| JointProofs.SocksInOrder | src/room/start.ts:753-796 | however the requests that open a client's sockets overtake each other, token rotation puts the client on sockets in the order it made them |
| JointProofs.StepKeeps | src/client/index.ts:243-457 | every step of the pair keeps the joint invariant: what each side has heard, which sockets the client was ever on, which tokens still stand |
| RoomFrames.LocalFrame | src/room/start.ts:251-945 | any step that opens no socket and admits nobody only appends frames, never a session frame, and hands something reliable only to the current socket of a client that stays tracked; it issues no token and moves none |
| ServerRuns.NoWantedRoomSwept | src/server/server.ts:536-639 | in any run, with any overlap of ticks: a room whose record is in the driver from before its spawn on is never passed to destroyWorker by a sweep |
| ServerRuns.ReassertedNotSwept | src/server/server.ts:575-629 | in any run, whatever falls between its driver calls, a tick never passes a room it has re-asserted to destroyWorker |
| ServerRuns.ReassertedRuns | src/server/server.ts:576-607 | in any run, whatever falls between the calls of the tick: a room it re-asserts is running in the driver again, with the type and data of its process, from its ready call on for as long as nobody removes or registers it |
| ServerRuns.RecordedNotSwept | src/server/server.ts:536-629 | nor does any tick answered while the room's record is in the driver, however the ticks overlap |
| ServerVerdicts.SweptIff | src/server/server.ts:623-629 | in any run, a tick that began at one step, got its snapshot at another and sweeps at a third kills a room that has a process, and marks it killed, iff the room is not in the snapshot, the run has not re-asserted it for the tick, and it was not attempted since the tick began |
| ServerVerdicts.SweptMeans | src/server/server.ts:623-629 | the rooms that the results about sweeping speak of are exactly those |
| ServerVerdicts.CutOffIff | src/server/server.ts:473-489 | when a current tick is answered, a room with a process loses it, is killed and reported failed once iff its clock is older than the stall timeout; any other keeps process, clock and reports |
| ServerVerdicts.ClockIsLatestBeat | src/server/server.ts:390-402 | in any run a room's clock is the time of its latest heartbeat message, or of its first message if that came later |
| ServerVerdicts.BeatStartsClock | src/server/server.ts:394-396 | from a beat on a room has a clock for as long as it keeps its process |
| ServerVerdicts.ReassertsWhatRuns | src/server/server.ts:576-607 | a tick may re-assert exactly the ready rooms with an endpoint that are not in its snapshot, and registers them as they were spawned |
| ServerOutcomes.StepAsTold | src/server/server.ts:172-207 | every step, spawn by spawn: it is killed, let go and reported (failure, unregister or nothing) exactly as tables over the events say |
| ServerOutcomes.StepLives | src/server/server.ts:390-444 | every step, spawn by spawn: started, ready, gone, exited, its startup passed, rejected or failed, its endpoint |
| ServerStarts.PushStartsIff | src/server/server.ts:494-513 | a push starts a room as assigned iff the server is not stopped and neither runs, nor starts, nor has tried it |
| ServerStarts.TickStartsIff | src/server/server.ts:642-656 | the end of a current tick starts exactly the rooms it lists as requested that the server neither runs, nor starts, nor has tried, each as listed |
| ServerStarts.LostIff | src/server/server.ts:657-671 | a listed room is reported lost iff the driver has it running, the server neither runs nor starts it, and it has been missed for the stall timeout; until then it stays noted since when |
| ServerStarts.AttemptForgottenIff | src/server/server.ts:673-681 | an attempt is forgotten iff its room is not listed, it was made before the tick asked, and it is older than the retention |
| ServerStarts.RecoversIff | src/server/server.ts:548-576 | a stale answer changes no room; a current one ends the tick unless the server's record was missing and a tick had ended before |
| ServerRuns.AtMostOnceSpawn | src/server/server.ts:494-513 | in any run, a room registered at most once is attempted at most once, over pushes, reconciles, late failure reports and the pruning of attempts |
| ServerRuns.OneTerminalReport | src/server/server.ts:172-207 | the spawn of a room registered once gets at most one report from exit, self-stop, stall and startup failure together, exactly one if it is over and was not killed; watched rooms have a process, and only rooms that have spoken are cut off as stalled |
| ServerRuns.WantedKept | src/server/server.ts:623-680 | one step: a record that stays keeps every tick under way from sweeping the room, through new snapshots, spawns and pruning |
| ServerRuns.OnceKept | src/server/server.ts:642-681 | one step keeps a room's spawn history: once its attempt is forgotten, its record is gone, no push can still arrive and the current snapshot does not list it |
| ServerInvariant.ReconcileRoomsGrow | src/server/server.ts:647-671 | the reconcile loop starts rooms only from the desired list, each at most once and none attempted before, and leaves every other process and attempt alone |
| ServerLoop.Server.CheckHeartbeatsNow | src/server/server.ts:473-489 | the loop kills, forgets and reports exactly the rooms silent for longer than the stall timeout |
| ServerLoop.Server.Sweep | src/server/server.ts:623-629 | the loop destroys exactly the rooms that are not re-asserted, not newer than the snapshot request and not desired |
| ServerLoop.Server.ReconcileDesiredRooms | src/server/server.ts:642-681 | the three loops: spawn requested rooms, time and report lost ones, forget what is no longer desired |
| ServerLoop.Server.AcceptAnswer | src/server/server.ts:548-576 | a stale answer is discarded; a current one leads to the stall check and then to recovery or to the end of the tick |
| ServerLoop.Server.HandleRoomEvent | src/server/server.ts:390-512 | for every event about a room the server takes exactly the specified step |
| ReapRecovery.HeartbeatTick | src/server/server.ts:536-634 | a whole current tick against the driver, with nothing between its calls: if the server's record was deleted since its last heartbeat, each room ready with an endpoint after the stall check is in the driver again with its server, data, endpoint and secret iff its ready call came within the ttl, and the tick kills none of them (ServerRuns.ReassertedNotSwept is the sweep half with other events in between) |
| ReapRecovery.RecoverRooms | src/server/server.ts:576-607 | the loop re-asserts exactly the ready rooms with an endpoint that are not desired, and each stays as its own calls left it |
| ReconcileClients.Reconcile | src/server/server.ts:226-263 | the two loops connect the missing and disconnect the vanished, as specified, after the lapsed rooms are swept |
| ReconcileClients.ConnectedAfterwards | src/server/server.ts:226-263 | afterwards exactly the reported clients are connected, and those connected at or after the heartbeat's timestamp |
| ReconcileClients.ReconciledAt | src/server/server.ts:238-262 | client by client: reported ones are connected here, vanished ones gone, every other record, reservations included, unchanged |
| ReconcileClients.OtherRoomsUntouchedIff | src/server/server.ts:238-246 | records of other rooms are untouched iff the report names none of their clients |
| ReconcileClients.SecondRunChangesNothing | src/server/server.ts:226-263 | a second run with the same report changes nothing |
| DriverOps.RoomsHaveServers | src/driver/memory.ts:144-402 | after any operations in any order, prunes and lazy sweeps at any times included, every room's server exists |
| DriverOutcomes.RoomAfter | src/driver/memory.ts:144-262 | for every operation and room: it is there afterwards iff registered, or there before and not unregistered, not gone with its server, not lapsed at a sweep; its record is as registered, tags and data included, until made ready |
| DriverOutcomes.ClientAfter | src/driver/memory.ts:305-365 | for every operation and client: it is there iff reserved or connected, or there before and not disconnected, not pruned with a lapsed reservation, not gone with its room; and with what in its record |
| DriverOutcomes.ServerAfter | src/driver/memory.ts:144-413 | for every operation and server: it is there iff it beats, or was there and is not unregistered, silent for too long at a reap or prune, or replaced on its endpoint |
| DriverOutcomes.RoomsAreRead | src/driver/memory.ts:259-290 | rooms are read iff they are there, not lapsed and match the filter, with exactly their clients |
| DriverOutcomes.BeatIsAnswered | src/driver/memory.ts:367-402 | a heartbeat returns the first tags, whether the server was new, and exactly its rooms that have not lapsed |
| Store.UnknownServerStartsEmpty | src/driver/memory.ts:367-402 | a server without a record gets an empty desired set from its next heartbeat |
| MemoryDriver.Driver.DeleteClientsForRoom | src/driver/memory.ts:136-142 | the loop removes exactly the room's clients |
| MemoryDriver.Driver.SweepExpiredRequestedRooms | src/driver/memory.ts:155-162 | removes exactly the lapsed requested rooms and their clients |
| MemoryDriver.Driver.PruneNow | src/driver/memory.ts:165-187 | stale servers with all they own, lapsed rooms and lapsed reservations go, nothing else |
| MemoryDriver.Driver.Perform | src/driver/memory.ts:136-413 | every operation, read, sweep and prune does to the maps and answers what the run lemmas say it does |
| RedisRuns.ReadsAreExact | src/driver/redis.ts:208-293 | in every run of operations and passing time from empty keys, a room id going to one server and a client id to one room: rooms, desired sets and clients read through the indexes are exactly what the live hashes say, clients of requested and lapsed rooms included |
| RedisRuns.ReadsTidyIndexes | src/driver/redis.ts:208-293 | a read or heartbeat drops exactly the stale entries of the index it goes through |
| RedisRuns.MatchesMapsIff | src/driver/redis.ts:300-646 | over any such run, in which the in-memory driver sweeps lapsed rooms at its next read, ready or heartbeat and prunes on its timer: the keys say throughout what the in-memory maps would show once swept iff every operation was exact, a condition on its arguments and the two states before it |
| RedisRuns.StaysSameIff | src/driver/redis.ts:300-646 | one operation: two stores that show the same go on doing so iff time lets every live client expire with its room and none without it, no stale server is pruned, no client connects to a lapsed room not yet swept, no accepted registration finds HSET leftovers or a lapsed room's clients, no accepted reservation has a ttl of zero or less, no server is dropped whose index lists an expired room with a live client, and none without a record is reaped whose index leads to something live |
| RedisRuns.AnswersMatchIff | src/driver/redis.ts:208-646 | over a run of exact operations both drivers answer each of them the same, room lists with their clients included, iff no one registers on a missing server with a bad ttl, reserves in a lapsed room not yet swept, reaps a server without a record, or asks for a server with such a room |
| RedisRuns.TidyRunsMatchMaps | src/driver/redis.ts:300-646 | the stores show the same throughout every run in which no live client runs out, no server is stale at a prune, clients connect to running rooms or to unlisted ones that have not lapsed, ids are registered without a live record or clients, reservations have a positive ttl and reaped servers a record |
| RedisSpec.RegisterAgreesIff | src/driver/redis.ts:901-908 | registering keeps indexes and live hashes in agreement iff no other server's index lists the id |
| RedisSpec.PutClientAgreesIff | src/driver/redis.ts:528-549 | writing a client keeps the agreement iff no other room's index lists the id; nothing is asked of the room |
| RedisExact.TimeSweepsIff | src/driver/redis.ts:308-557 | time does to the live hashes what the next sweep does to plain maps iff every live client expires with its room and none without it; the rooms always agree |
| RedisExact.DropIsDeleteIff | src/driver/redis.ts:920-941 | deleting by server indexes deletes what the plain maps delete iff no live client's room is expired and still listed; rooms and servers always agree |
| RedisExact.RegisterIsRegisterIff | src/driver/redis.ts:901-908 | registering does to the plain maps what the in-memory driver does iff the server is missing or no live hash of that id has an endpoint or secret, which HSET would leave in place |
| RedisExact.ReserveIsReserveIff | src/driver/redis.ts:468-526 | reserving does what the plain maps do iff it is refused or the ttl is positive: a ttl of zero or less deletes the key |
| RedisExact.BeatIsHeartbeatIff | src/driver/redis.ts:568-634 | a heartbeat does what the plain maps do iff the server is known or evicting its endpoint's other servers leaves no such client behind; the desired set always agrees |
| RedisExact.ReapIsReapIff | src/driver/redis.ts:920-941 | the reap script does what the plain maps do iff the record exists and is fresh, or leaves no such client behind; without a record, iff the server's index leads to nothing live |
| RedisExact.ConnectIsConnect | src/driver/redis.ts:528-549 | connecting is the plain maps' upsert, whatever the state of the room |
| RedisExact.UnregisterIsRemove | src/driver/redis.ts:346-361 | unregistering by indexes removes exactly the room and its clients |
| RedisSpec.TimeKeepsAgreement | src/driver/redis.ts:208-293 | the indexes go on agreeing with the live hashes as hashes expire, with no condition on rooms or clients |
| RedisSpec.PruningIsInvisible | src/driver/redis.ts:229-290 | dropping expired entries from an index drops no live id and changes no plain map |
| RedisSpec.ServerIndexIsDesired | src/driver/redis.ts:616-631 | a server's index read through and filtered is its desired set |
| RedisSpec.ClientIndexIsClients | src/driver/redis.ts:208-238 | a room's client index read through and filtered is its clients |
| RedisSpec.RoomIdsAreRooms | src/driver/redis.ts:414-424 | the room set read through and filtered is all live rooms |
| RedisDriver.Driver.UnregisterNow | src/driver/redis.ts:346-361 | the command sequence and its loop over clients do what removing the room does |
| RedisDriver.Driver.GetClientsForRoom | src/driver/redis.ts:208-238 | the loop returns exactly the room's live clients and drops only stale entries |
| RedisDriver.Driver.ListRooms | src/driver/redis.ts:414-446 | exactly the live rooms that match the filter, each with exactly its live clients; stale ids leave the room set and the client indexes that were read |
| RedisDriver.Driver.RoomInfos | src/driver/redis.ts:241-293 | the loop gives each room its live clients and drops the stale entries of their indexes, no other |
| RedisDriver.Driver.ReadRoomHashes | src/driver/redis.ts:260-278 | the loop splits ids into live hashes and stale ids |
| RedisDriver.Driver.ServerHeartbeat | src/driver/redis.ts:568-634 | writing first and evicting afterwards: tags of a known server are kept, the desired set is exact, and the whole ends as the plain maps' heartbeat iff eviction leaves no live client of an expired listed room behind |
| RedisDriver.Driver.UnregisterServerNow | src/driver/redis.ts:636-646 | the loop over the index removes the server, its rooms and all their indexed clients; that is the plain maps' deletion iff no live client's room is expired and still listed |
| RedisDriver.Driver.DeleteRoomKeys | src/driver/redis.ts:926-934 | the script's loop deletes exactly the listed rooms, their client indexes and the clients those list |
| RedisDriver.Driver.Perform | src/driver/redis.ts:208-646 | every operation, read or write, does to the keys and answers what the run lemmas say it does |
| WaitForRoom.SettlesAndReleasesOnce | src/driver/wait-for-room.ts:26-87 | the wait settles at most once and its outcome never changes; the subscription is released exactly once iff it landed and the wait settled, in either order |
| WaitForRoom.ResolvesOnlyRunning | src/driver/wait-for-room.ts:40-44 | it resolves only with a running record |
| WaitForRoom.RemovedMeansRemovedIff | src/sdk/index.ts:118-137 | that a merely slow room is never reported removed, in any run, holds iff the wait's timeout fires at most REQUESTED_ROOM_TTL_MARGIN_MS late |
| WaitForRoom.StartErrorMeansRemoved | src/driver/wait-for-room.ts:45-46 | a start error means that the record of a room that had become ready was taken away, however late the timeout |
| WaitForRoom.OnlyALateMissRemoves | src/driver/wait-for-room.ts:37-56 | 'record removed' comes exactly from a missed read issued after the registration was known, 'start error' exactly from a missed read after a ready signal, success exactly from a read that found it running |
| WaitVerdicts.SettlesIff | src/driver/wait-for-room.ts:26-61 | a wait that is on settles iff the event is a read that found the room running, a miss issued after a ready signal or a known registration, the timeout, a failed signal or a failed registration |
| WaitVerdicts.RunningResolves | src/driver/wait-for-room.ts:40-42 | a read that found the room running resolves it |
| WaitVerdicts.MissRejects | src/driver/wait-for-room.ts:43-47 | a miss that counts rejects it, as a failed start after a ready signal and as a removal otherwise |
| WaitVerdicts.SignalsReject | src/driver/wait-for-room.ts:56-69 | timeout, failure signal and failed registration reject it with their own error |
| WaitVerdicts.LooksIssue | src/driver/wait-for-room.ts:34-86 | a poll, a ready signal, the registration and a subscription that lands each issue one read, and nothing else does |
| WaitVerdicts.ReadsRemember | src/driver/wait-for-room.ts:35-37 | in every run a read knows whether a ready signal issued it and whether the registration had been reported by then |
| WaitVerdicts.PollFindsRunning | src/driver/wait-for-room.ts:49-50 | a poll whose read finds a running record resolves a wait that is on |
| WaitForRoom.FailedCreateLeavesNothing | src/sdk/index.ts:147-150 | once a failed createRoom's unregister has gone through, no record of the room exists or comes back unless a reaped server asserts the room again |
| WaitForRoom.FailedCleanUpLapses | src/sdk/index.ts:147-150 | when that unregister fails, which is swallowed, a record that is only requested and never made ready is gone once its ttl is over |
| WaitForRoom.Waiter.Handle | src/driver/wait-for-room.ts:26-87 | for everything it reacts to the waiter takes exactly the specified step and keeps the invariant; once settled its outcome never changes |
| FrameParser.ChunkingInvariant | src/common/notify-protocol.ts:113-139 | emitted payloads and leftover depend only on the concatenation of the chunks |
| FrameParser.FramesSurviveAnyChunking | src/common/notify-protocol.ts:98-139 | encoded frames cut anywhere come out as exactly their payloads, nothing left over |
| FrameParser.RoundTripIffFits | src/common/notify-protocol.ts:98-103 | one frame comes back as itself iff its payload is shorter than 2^32 bytes |
| FrameParser.ParseAppend | src/common/notify-protocol.ts:116-137 | bytes that arrive later never change what was already emitted |
| FrameParser.RoundTrip | src/common/notify-protocol.ts:98-139 | parsing concatenated frames gives the payloads back |
| FrameParser.EncodeRawFrame | src/common/notify-protocol.ts:98-103 | the array holds the big-endian length and the payload |
| FrameParser.Parser.Push | src/common/notify-protocol.ts:113-139 | the loop emits exactly the complete frames of leftover plus chunk and keeps the rest |
| CursorProofs.PagesConverge | website/frontend/src/app.tsx:66-103 | after every tick of every run, each page shows, once its queue has drained, exactly the announced cursors of the others, identity and position, under joins, leaves and cid reuse |
| CursorHistory.PagesShowHistory | website/frontend/src/app.tsx:66-103 | after a tick of any run each page shows, once its queue has drained, exactly the other visitors who have joined, pointed somewhere and not left: as who they joined and where they pointed last |
| CursorHistory.JoinIsTold | website/backend/src/room.ts:44-56 | a newcomer gets its own snapshot and everyone the new count |
| CursorHistory.LeaveIsTold | website/backend/src/room.ts:75-82 | after a leave everyone gets the new count |
| CursorProofs.CidsNeverClash | website/backend/src/room.ts:27-34 | in every run current cids are nonzero 16-bit numbers and pairwise different |
| CursorProofs.ScanEndsIffRoomLeft | website/backend/src/room.ts:30 | a free cid exists, so the wrapping scan ends, iff fewer than 65535 are in use |
| CursorProofs.AllocIsFresh | website/backend/src/room.ts:27-34 | allocCid returns a nonzero cid that no current cursor has |
| CursorProofs.StepKeeps | website/backend/src/room.ts:44-99 | every event keeps each page's drained copy in line with the room's cursors, up to moves the next tick will send |
| CursorServer.Room.AllocCid | website/backend/src/room.ts:27-34 | the loop ends at the first free cid after nextCid, wrapping, and nextCid moves past it |
| CursorServer.Room.HandleTick | website/backend/src/room.ts:90-99 | one frame with exactly the dirty cursors, whose flags are cleared; none if nothing moved |
| CursorServer.Handle | website/backend/src/room.ts:44-99 | a join, a message, a leave or a tick takes exactly the specified step and keeps the invariant |
| CursorServer.Page.OnMessage | website/frontend/src/app.tsx:66-103 | the page's map after each message; its own cursor is never added or moved |
| Canary.ReconnectIsJustified | src/driver/subscriber-canary.ts:37-50 | reconnect is called only for a token whose PUBLISH resolved more than the timeout ago, that never arrived, with the subscriber ready at every tick since it was sent |
| Canary.DeafnessIsNoticed | src/driver/subscriber-canary.ts:7-8 | with ticks on time, a ready subscriber and publishes that resolve at once, deafness from any moment after the first tick on leads to reconnect within the documented bound |
| Canary.TokenSettlesIff | src/driver/subscriber-canary.ts:28-64 | the token that is out is settled iff it arrives, its publish fails, the subscriber is unready or it is overdue, which alone counts a miss; the next is sent iff none is out, the subscriber is ready and the interval over |
| Canary.SubscriberCanary.Handle | src/driver/subscriber-canary.ts:28-64 | every event takes exactly the specified step and keeps the invariant; reconnect is called for a token that resolved that long ago and has not arrived, a publish takes the next token |
| Punctuate.AtMostOneCurrent | src/common/punctuate.ts:79-103 | in every interleaving a run is current iff it is the newest, its tick still awaits it and nothing stopped the loop |
| Punctuate.CurrencyIsNeverRegained | src/common/punctuate.ts:47-54 | a run that is not current never becomes current again |
| Punctuate.RunsAreSpaced | src/common/punctuate.ts:96-102 | epochs of successive runs strictly increase; with exact timers they start at least the interval and at most the larger of interval and timeout apart |
| Punctuate.LoopGoesOn | src/common/punctuate.ts:79-107 | until it is stopped, always either a run is awaited or the next tick is due, one interval after the last start or at once if that has passed, and a due tick starts a run |
| Punctuate.Punctuator.Handle | src/common/punctuate.ts:54-107 | every event takes exactly the specified step at its time and keeps the invariant |

## Left out

- Sockets, http, child processes, Docker and the notify listeners: a runner appears only by its messages, its exit and `kill`.
- Codecs, text encoding, random tokens and jwt verification: messages are datatypes, sizes are given, tokens and secrets are parameters; the protocol-version and jwt branches of `upgrade` are not part of this model.
- User callbacks other than onAuth, onDrop and onShutdown, and what they do beyond calling the room. onLeave, onMessage and onReconnect are deferred to a microtask (`src/room/start.ts:30-36`), so none of them runs in the middle of a fan-out or an eviction.
- Broadcasting before `start()`, which throws, and the room's own heartbeat and ready messages to its server.
- `onAuth` that throws: it differs from a rejection only in the error text and the close code.
- The order in which a room's loop visits its clients: sets are visited in any order and the result is the same.
- The client's onMessage, onError and unload handlers, backoff delays and the address it reconnects to.
- An open client's `close()` is followed by the socket's close event with any code; only with 4000 does it end the connection, so nothing is claimed about never reconnecting after `close()`.
- The frame parser hands out views of the caller's buffer; here payloads are values, so aliasing is not captured.
- Changing server and room tags, `listServers` and its filters, `cleanOrphanedRoomEntries`, leader election, the leader lock and `stop()`'s drain timeout.
- Redis connection lifecycle, pub/sub multiplexing, the schema flush, and partial execution of a command sequence.
- ReapRecovery.HeartbeatTick: does not interleave other events with the driver calls of the tick; with other events in between, ServerRuns.ReassertedRuns and ReassertedNotSwept say in the server's state machine that a re-asserted room stays running while its record is kept and is never swept by that tick. Endpoints, secrets and the ttl are in HeartbeatTick only.
- JointProofs.AppToRoom: does not cover messages after the client has closed, when its buffer is dropped.
- JointProofs.RoomToApp: one client beside a room with any others; a client that leaves and opens its id again is another client.
- ServerRuns.AtMostOnceSpawn: does not cover a room registered twice, for which the code forgets the first attempt after five minutes outside the desired set.
- Memory-driver clients have no referential integrity: connecting is an upsert without a room check.
- React rendering, the docs builder, matchmaking and the other examples.
