# Device hub: a verified model

The hub connects paired devices over web sockets and routes commands to them. It is a set of
cooperating asyncio tasks over shared tables. This project models the concurrent parts as state
machines, the stores as classes, and the codecs as functions, and proves what holds over every run.

| Part | Files | What is proved |
|---|---|---|
| Command routing | `Tables`, `Commands`, `CommandRuns`, `CommandEffects`, `ConnectionManager`, `Executions`, `HubProjection` | waiters are conserved, replies correlated, sessions final, the send gate sound, shutdown complete, an accepted reply returned; the manager class does exactly what the tables say, and the manager object with all execute calls on it follows the command machine step by step |
| Device lifecycle | `Lifecycle`, `LifecycleRuns`, `LifecycleEffects` | revocation is final although activation and execution run outside the lifecycle lock; grants are never exceeded; each operation answers what it should |
| Gateway session | `Transport`, `Gateway`, `GatewayRuns`, `GatewayEffects`, `Heartbeat`, `Replay`, `CloseReason` | frame order, nothing after a close, the two-task heartbeat handshake, the replay window, close reasons cut to the longest prefix that fits |
| Identity and pairing | `Tokens`, `Identity`, `Pairing`, `PairingRuns`, `PairingStores` | tokens round-trip, both identity stores refine one map, the compensated and the transactional claim refine one atomic claim |
| Registry | `Registry`, `RegistryRuns` | over every run of pairing and service operations the row store and the in-memory store are indistinguishable, and so are the service's listings |
| Locks | `Programs`, `Scheduler`, `SchedulerRuns` | no wait cycle, every schedule comes to an end with all tasks finished, store locks are never seen held |

## How to read it

An event of a machine is the code between two suspension points. That the bodies under the manager,
registry and identity locks are atomic is itself proved (`SchedulerRuns.StoreLocksNeverShared`):
no task is ever switched while one of those locks is held or waited for. The layers are tied
together by projections: every gateway run and every service run contains a run of the command
machine through all its hubs (`GatewayRuns.RunContained`, `LifecycleRuns.RunContained`), so what
is proved along the runs of that machine holds in both; `ReplyAccepted` carries the correlation
of replies over to each.

Assumptions, visible in the machines' `Enabled` predicates and in the datatypes:

* drawn identifiers (sessions, nonces, devices, tokens) are fresh;
* nobody names a device before it is visible: while a compensated claim is under way, or before a transactional one
  has committed, no other task revokes its tokens or saves it;
* the HMAC digest is injective (`Identity.Hmac` is a free constructor);
* scheduling is cooperative; a task may be cancelled wherever it suspends, but not a second time inside its own
  cleanup or rollback (the lock machine needs no such limit and has none);
* clocks, timeouts, sockets and the database answer at any time and in any way their contracts allow.

Where an operation does not do what its surroundings suggest, the condition under which it does is
proved both ways:

* A token secret longer than 215 characters gives a token that can never authenticate, because the
  parser refuses more than 256 characters (`Tokens.IssuedTokenParses`).
* The rollback of the in-memory claim restores the stores exactly if the drawn device id was
  nobody's; otherwise it removes the other device (`Pairing.RollbackRestoresIffFresh`).
* The transactional claim is atomic exactly if the answer of its commit arrives. A cancellation
  during the commit leaves the challenge claimable, and a second claim enrols a second device
  (`Pairing.TransactionIsAtomicIffAnswered`, `Pairing.InDoubtEnrolsTwice`).
* A claim that is cancelled inside `issue` after its token is filed stands outside the compensated part: it
  keeps a token for a device that is never registered, and with it the challenge. The interleaved claim
  refines the atomic one exactly if that does not happen and no commit's answer is lost
  (`PairingRuns.RunRefinesAtomic`). With the in-memory identity it cannot happen: from asking for the identity's
  lock until the compensating handler is in place no other task runs and no cancellation arrives
  (`SchedulerRuns.IssueNeverCutOff`).
* A device survives its row exactly if it carries no live state and, on a backend that keeps only
  the wall clock, its stamps are in UTC (`Registry.SurvivesRowIffDurable`). Over runs of pairing and service
  operations the two registries can never be told apart exactly if every write on such a backend is stamped in
  UTC (`RegistryRuns.ServiceRunsAgree`).
* In `resolve`, the branch for a future that is already done is unreachable
  (`CommandRuns.DoneBranchUnreachable`), and for a waiting command the test that the session is current follows from
  the entry's own session (`CommandRuns.AnswerCompletesItsOwn`).

## Model

| member | source | states |
|---|---|---|
| CommandRuns.WaitersConserved | app/infrastructure/devices/memory.py:229-362 | in every reachable state a registered execution is either filed with an open future or unfiled with a done one; a filed one is live and its session current; nobody is orphaned when the session goes |
| CommandRuns.FutureCompletesOnce | app/infrastructure/devices/memory.py:284-317 | a future that is done keeps its outcome for the rest of the run |
| CommandRuns.DoneBranchUnreachable | app/infrastructure/devices/memory.py:302-316 | whenever a reply matches a pending entry, that entry's future is still open |
| CommandRuns.AnswerCompletesItsOwn | app/infrastructure/devices/memory.py:294-317 | a reply for a waiting command is accepted iff device and session are the command's own and the reply names that device; it resolves and unfiles that command only, and a refused reply changes nothing |
| CommandRuns.DroppingFailsItsOwn | app/infrastructure/devices/memory.py:135-159 | connect, disconnect and disconnect_device fail with an offline error exactly the commands waiting for that device, and leave every other connection and command as it was |
| CommandRuns.EntriesCoherent | app/infrastructure/devices/memory.py:242-258 | each pending entry's device is connected with the entry's session and ONLINE |
| CommandRuns.ShutdownCompletesEveryone | app/infrastructure/devices/memory.py:319-329 | close_all, failing futures per connected device only, completes every open future and empties both tables |
| CommandRuns.OnlyAnswerResolves | app/infrastructure/devices/memory.py:294-317 | a future becomes resolved only in a step that accepts a reply for that very entry |
| CommandRuns.AcceptanceExists | app/infrastructure/devices/memory.py:294-317 | each resolved future has an accepting step before it in the run, with that reply |
| CommandRuns.AcceptedOnce | app/infrastructure/devices/memory.py:294-317 | no run accepts two replies for one execution |
| CommandRuns.ReplyCorrelated | app/infrastructure/devices/memory.py:276-317 | if execute returns r, exactly one resolve accepted r for it, with its command and device ids and its session current then |
| CommandRuns.CleanupSparesReuse | app/infrastructure/devices/memory.py:285-292 | an execution that leaves unfiles itself and touches no other execution, also when the command id has been used again |
| CommandRuns.SessionFinality | app/infrastructure/devices/memory.py:135-205 | a session that was replaced or removed is never current again |
| CommandRuns.StaleSessionInert | app/infrastructure/devices/memory.py:161-227 | disconnect, touch, activate and resolve with such a session change nothing |
| CommandRuns.StaleSendFailureInert | app/infrastructure/devices/memory.py:265-275 | a failed send on such a session changes no connection and no other command |
| CommandRuns.GateSound | app/infrastructure/devices/memory.py:260-268 | if the identity test before sending passes, the connection was current and ONLINE at every moment since registration, and the command is still filed or was resolved by that session |
| CommandRuns.AcceptedFromOwnSession | app/infrastructure/devices/memory.py:294-317 | a reply is accepted for an execution only from its own device and session |
| CommandRuns.Birth | app/infrastructure/devices/memory.py:242-258 | every execution was once filed with its session current and ONLINE |
| CommandRuns.SendsNeverOverlap | app/infrastructure/devices/memory.py:260-275 | two executions never send on one session at the same time |
| CommandRuns.RunInv | app/infrastructure/devices/memory.py:124-362 | the routing invariant holds in every state of every interleaving |
| CommandRuns.RunEvolves | app/infrastructure/devices/memory.py:124-362 | along a run, done futures, ticket identities and lost sessions never go back |
| CommandEffects.CommandRoundTrip | app/infrastructure/devices/memory.py:135-317 | from any reachable state, a device that connects with a new session and is activated for a capability can be sent a command that needs it, and the reply it gives is what execute returns; every other connection stays as it was |
| CommandEffects.AcceptedReplyIsReturned | app/infrastructure/devices/memory.py:276-284 | an execution that wakes after a reply was accepted for it returns exactly that reply |
| CommandEffects.AcceptedReplyCanBeReturned | app/infrastructure/devices/memory.py:276-284 | and it can wake as soon as it waits |
| CommandEffects.EndsExactly | app/infrastructure/devices/memory.py:260-292 | a live execution ends in a step iff the step is a reason: its resolved future with that reply, a closed gate or a failed future offline, a failed send, a timeout, a cancellation each with its own error |
| CommandEffects.GoesOnExactly | app/infrastructure/devices/memory.py:260-284 | otherwise it goes from queueing to sending to waiting by its own steps only |
| CommandEffects.SendingEffect | app/infrastructure/devices/memory.py:265-275 | a send that ends well changes no table; one that fails disconnects its own session and nothing else |
| CommandEffects.OperationEvents | app/infrastructure/devices/memory.py:135-336 | every other event is its operation on the tables, and leaves executions and send locks alone |
| CommandEffects.LockEffect | app/infrastructure/devices/memory.py:260-275 | the send lock is taken by the gate that passes and given back however that send ends |
| CommandEffects.ActivateEffect | app/infrastructure/devices/memory.py:161-179 | an accepted activation makes the connection ONLINE with both capability sets and the new time, keeping session, transport and connected_at; which check refuses it otherwise |
| CommandEffects.AdmissionIs | app/infrastructure/devices/memory.py:234-250 | a command is admitted iff its timeout is positive, its deadline ahead, its device ONLINE with the capability effective and its id free; the first thing wrong names the error |
| CommandEffects.RegisterEffect | app/infrastructure/devices/memory.py:251-258 | an admitted command is filed with its device, session and a new open future, and nothing else changes |
| CommandEffects.ConnectEffect | app/infrastructure/devices/memory.py:135-150 | the new connection is CONNECTING with nothing advertised, and only the device's own entries go |
| CommandEffects.TouchEffect | app/infrastructure/devices/memory.py:221-227 | only last_seen_at of the current session changes |
| CommandEffects.CleanupEffect | app/infrastructure/devices/memory.py:285-292 | the execution's entry goes, an open future is cancelled, a done one kept |
| CommandEffects.UnknownReplyRefused | app/infrastructure/devices/memory.py:294-311 | a reply that names no waiting command is refused and changes nothing |
| Commands.InvPreserved | app/infrastructure/devices/memory.py:135-362 | every event keeps the routing invariant and only moves history forward |
| Commands.FinishKeeps | app/infrastructure/devices/memory.py:285-292 | leaving execute unfiles the execution and leaves its future done |
| Commands.SendFailedKeeps | app/infrastructure/devices/memory.py:265-275 | a failed send's disconnect keeps the invariant |
| Tables.DropDeviceEffect | app/infrastructure/devices/memory.py:344-362 | removing a device's pending entries unfiles and fails exactly the commands of that device |
| Tables.ConnectCoherent | app/infrastructure/devices/memory.py:135-159 | connect with a fresh session keeps both tables coherent |
| Tables.ActivateCoherent | app/infrastructure/devices/memory.py:161-179 | activate keeps both tables coherent |
| Tables.DisconnectCoherent | app/infrastructure/devices/memory.py:181-189 | disconnect keeps both tables coherent |
| Tables.DisconnectDeviceCoherent | app/infrastructure/devices/memory.py:191-205 | disconnect_device keeps both tables coherent |
| Tables.RegisterCoherent | app/infrastructure/devices/memory.py:229-258 | registration keeps both tables coherent |
| Tables.CleanupCoherent | app/infrastructure/devices/memory.py:285-292 | cleanup leaves its own waiter done and every other as it was |
| Tables.ResolveCoherent | app/infrastructure/devices/memory.py:294-317 | resolve keeps both tables coherent |
| Tables.CloseAllCoherent | app/infrastructure/devices/memory.py:319-329 | close_all leaves no open future behind |
| ConnectionManager.Manager.constructor | app/infrastructure/devices/memory.py:129-133 | the manager starts with empty tables |
| ConnectionManager.Manager.Connect | app/infrastructure/devices/memory.py:135-159 | connect on the dictionaries and futures is the table operation, and hands back the replaced connection |
| ConnectionManager.Manager.Activate | app/infrastructure/devices/memory.py:161-179 | activate updates the connection object in place, or reports which check failed |
| ConnectionManager.Manager.Disconnect | app/infrastructure/devices/memory.py:181-189 | disconnect answers whether the session was current and acts only then |
| ConnectionManager.Manager.DisconnectDevice | app/infrastructure/devices/memory.py:191-205 | disconnect_device pops the connection to be closed and fails its commands |
| ConnectionManager.Manager.GetState | app/infrastructure/devices/memory.py:207-219 | get_state copies the connection's fields, or answers nothing |
| ConnectionManager.Manager.Touch | app/infrastructure/devices/memory.py:221-227 | touch updates last_seen_at only for the current session |
| ConnectionManager.Manager.Judge | app/infrastructure/devices/memory.py:234-250 | the checks of execute in the source's order |
| ConnectionManager.Manager.Register | app/infrastructure/devices/memory.py:234-258 | an admitted command is filed with a new future, and the caller keeps that entry and the connection drawn for its session |
| ConnectionManager.Manager.IsStillOwn | app/infrastructure/devices/memory.py:262-264 | for a connection kept since registration, comparing connection objects is the same as comparing sessions |
| Executions.Executor.Step | app/infrastructure/devices/memory.py:135-362 | any step of the command machine, taken on the manager object and the local variables of all execute calls, leads to the machine's next state |
| Executions.Executor.Run | app/infrastructure/devices/memory.py:135-362 | any interleaving of executions, cleanups and operations takes the objects where it takes the machine |
| Executions.RunFromStart | app/infrastructure/devices/memory.py:229-317 | the objects' state is the last of a run of the machine; a call that returned a reply got it from its own device and session, by one of the run's answers |
| Executions.Executor.Submit | app/infrastructure/devices/memory.py:234-258 | an admitted call keeps its entry and connection and queues for the send lock |
| Executions.Executor.Gate | app/infrastructure/devices/memory.py:260-264 | comparing connection objects under the send lock decides exactly as the machine's gate |
| Executions.Executor.SendFailed | app/infrastructure/devices/memory.py:265-275 | a failed send disconnects the call's own session and leaves |
| Executions.Executor.Wake | app/infrastructure/devices/memory.py:279-284 | the outcome read from the call's own future is the machine's |
| Executions.Executor.Finish | app/infrastructure/devices/memory.py:285-292 | the finally block on the kept entry is the machine's cleanup, also after any number of other steps |
| Executions.KeptStays | app/infrastructure/devices/memory.py:251-292 | the entries and connections that calls keep stay their own whatever else runs |
| Executions.Executor.Operate | app/infrastructure/devices/memory.py:135-336 | an operation of any other task does to the objects what its event does to the machine |
| ConnectionManager.Manager.Finish | app/infrastructure/devices/memory.py:285-292 | the finally block: the entry is deleted only if it is this object, the future is cancelled only if open |
| ConnectionManager.Manager.Resolve | app/infrastructure/devices/memory.py:294-317 | resolve accepts exactly as the tables say and completes that entry's future |
| ConnectionManager.Manager.CloseAll | app/infrastructure/devices/memory.py:319-336 | the loop over connected devices fails every pending future, and both dictionaries are empty |
| ConnectionManager.Manager.RemovePendingForDevice | app/infrastructure/devices/memory.py:344-353 | pops exactly the device's entries and returns exactly those |
| ConnectionManager.Manager.FailPending | app/infrastructure/devices/memory.py:355-362 | fails exactly the open futures among the given entries |
| ConnectionManager.Manager.FiledIffListed | app/infrastructure/devices/memory.py:285-288 | the identity test finds an execution's entry exactly under its own command id |
| LifecycleRuns.RevocationIsFinal | app/application/devices/service.py:110-129 | once revoke_device has disconnected the device, in every later state no token authenticates as it, it has no connection and no filed command, no execution of it passes the send gate, no reply to it matches, nothing is about to connect it, and each task that has yet to read it or has read it in order to activate it is refused |
| LifecycleRuns.SettledDispatchRefused | app/application/devices/service.py:175-204 | an execute_command that passed its earlier checks before the revocation is still refused at the manager |
| LifecycleRuns.RevokedAtWrittenOnce | app/application/devices/service.py:110-129 | revoked_at never changes once written, also when revoke_device runs again |
| LifecycleRuns.EffectiveIsGranted | app/application/devices/service.py:144-163 | the manager's effective set is always advertised ∩ granted, and equals the hydrated device's available capabilities |
| LifecycleRuns.GrantsNeverExceeded | app/application/devices/service.py:175-204 | every command ever filed has its capability in the grant its device was enrolled with, and its capability and action in the allowlist |
| LifecycleRuns.CommandsHaveEnrolledDevice | app/application/devices/service.py:175-204 | every registered device was enrolled earlier in the run, with the grant it still has |
| LifecycleRuns.RunInv | app/application/devices/service.py:88-245 | the service invariant holds in every state of every interleaving |
| LifecycleRuns.ServiceProjects | app/application/devices/service.py:110-228 | each service step acts on the manager as a sequence of manager events |
| LifecycleRuns.RunContained | app/application/devices/service.py:110-228 | every service run contains a run of the command machine through all its hubs |
| LifecycleRuns.ReplyAccepted | app/application/devices/service.py:175-225 | if execute_command returns a reply, some step of the service run accepted it from the command's own device and session, current then |
| Lifecycle.InvPreserved | app/application/devices/service.py:88-245 | every event of the service keeps its invariant, and rows only move forward |
| Lifecycle.SettledIsCutOff | app/application/devices/service.py:110-129 | a device whose revocation finished is cut off |
| Lifecycle.DispatchGranted | app/application/devices/service.py:182-203 | an action that passes the allowlist is already stripped, so the action sent is the one checked |
| Lifecycle.NormalizationStrips | app/domain/devices/models.py:24-32 | a capability definition holds only stripped, non-empty actions |
| Lifecycle.NormalizedExactly | app/domain/devices/models.py:24-32 | a definition is refused iff it names no action or a blank one; else it keeps each action stripped |
| LifecycleEffects.TokenAuthenticates | app/application/devices/service.py:88-97 | a device's live token authenticates as it |
| LifecycleEffects.DeviceConnects | app/application/devices/service.py:131-142 | an unrevoked device connects whenever the lifecycle lock is free, and the caller gets the drawn session |
| LifecycleEffects.DeviceActivates | app/application/devices/service.py:144-163 | a connected, unrevoked device is activated with advertised ∩ granted, which is the answer |
| LifecycleEffects.CommandDispatches | app/application/devices/service.py:175-204 | a command the connection can take and the allowlist allows reaches the manager with its own device, capability and action and a deadline a timeout after its issue |
| LifecycleEffects.DeviceIsRevoked | app/application/devices/service.py:110-129 | a revocation that finds the lock free ends with the stamped device as the answer, its tokens and its connection gone, and nothing else changed |
| LifecycleEffects.ReadEffect | app/application/devices/service.py:110-163 | what each operation does with the device it reads, missing, revoked or neither |
| LifecycleEffects.RevokingEffect | app/application/devices/service.py:115-129 | revoking drops the tokens, stamps the row and keeps its grant, disconnects, and answers the row |
| LifecycleEffects.ConnectingEffect | app/application/devices/service.py:131-163 | connecting and activating hand the manager the device, session, transport and capabilities they were called with |
| LifecycleEffects.DispatchEffect | app/application/devices/service.py:182-203 | the conditions under which a command is handed over, and which command it is |
| LifecycleEffects.ShownExactly | app/application/devices/service.py:230-245 | a device is shown revoked, offline, or as its connection is |
| GatewayRuns.FramesInOrder | app/api/websocket/device_gateway.py:136-279 | on each socket hello is first and only first, ready can only be second, and pings, acks, rejections and commands come only after ready |
| GatewayRuns.NothingAfterClose | app/api/websocket/device_gateway.py:80-102 | a transport issues at most one close and no frame after it |
| GatewayRuns.ReadyStartsWithActivation | app/api/websocket/device_gateway.py:167-181 | when the hello activates, the transport is idle and open, so server.ready starts in the same step |
| GatewayRuns.OnlineMeansReady | app/api/websocket/device_gateway.py:167-181 | an ONLINE connection's socket has already started server.ready |
| GatewayRuns.GatewayProjects | app/api/websocket/device_gateway.py:106-279 | each gateway step acts on the manager as a sequence of manager events |
| GatewayRuns.RunContained | app/api/websocket/device_gateway.py:106-279 | every gateway run contains a run of the command machine through all its hubs |
| GatewayRuns.ReplyAccepted | app/api/websocket/device_gateway.py:235-256 | if an execution returns a reply, some step of the gateway run accepted it from the command's own device and session, current then |
| HubProjection.RunContained | app/infrastructure/devices/memory.py:124-362 | any machine whose steps are sequences of manager events contains one run of the manager, with each step's events in place |
| HubProjection.ReplyAccepted | app/infrastructure/devices/memory.py:276-317 | in any such machine a returned reply was accepted in one of the steps |
| GatewayRuns.RunInv | app/api/websocket/device_gateway.py:106-279 | the session invariant holds in every interleaving of reader, heartbeat, senders and evictions |
| Gateway.InvPreserved | app/api/websocket/device_gateway.py:106-279 | every gateway event keeps the session invariant |
| Gateway.ActivatedIsStarted | app/api/websocket/device_gateway.py:167-181 | asking for server.ready right after activation puts it second on the socket |
| GatewayEffects.SessionOpens | app/api/websocket/device_gateway.py:136-206 | from any state, a device that connects, greets and is activated is served: hello and ready alone are on its socket and the manager shows it ONLINE with its capabilities |
| GatewayEffects.CommandServed | app/infrastructure/devices/memory.py:260-284 | an execution at the gate of a session with an idle transport puts its command on that socket and returns the reply that comes back on that session |
| GatewayEffects.SendEndEffect | app/infrastructure/devices/memory.py:265-275 | a command frame that is written lets its execution wait and changes no table; one that fails ends it and disconnects its session |
| GatewayEffects.SendTurnEffect | app/api/websocket/device_gateway.py:80-91 | a queued command's frame starts on an open transport; a closed one refuses, which is a failed send |
| GatewayEffects.GateEffect | app/infrastructure/devices/memory.py:260-275 | the gate ends the execution offline, or starts its frame on that connection's transport, queues it, or fails on a closed one |
| GatewayEffects.CancelSendEffect | app/infrastructure/devices/memory.py:285-292 | a cancelled send leaves the wire and ends with the cancellation |
| GatewayEffects.HandlerSendEnds | app/api/websocket/device_gateway.py:136-206 | the end of the handler's own frame moves it on to the next stage, or leaves it nothing but to close; ready starts the heartbeat |
| GatewayEffects.HandlerTurnEffect | app/api/websocket/device_gateway.py:80-102 | the handler's queued frame or close starts when its turn comes, or is refused |
| GatewayEffects.ActivationEffect | app/api/websocket/device_gateway.py:167-181 | an accepted activation is answered with ready or an acknowledgement, a refused one is an error to report |
| GatewayEffects.FramesOfSteps | app/api/websocket/device_gateway.py:136-257 | which frame each step of handler and heartbeat asks for |
| GatewayEffects.StagesOfSteps | app/api/websocket/device_gateway.py:149-279 | what a greeting, an error and the end of the handler do to its stage and to the wire |
| GatewayEffects.CloseEffect | app/api/websocket/device_gateway.py:93-102 | each closer asks for the send lock with a close |
| GatewayEffects.EvictionEffect | app/infrastructure/devices/memory.py:151-159 | replacement and eviction close the transport of the connection they take away, and no other |
| GatewayEffects.ShutdownEffect | app/infrastructure/devices/memory.py:330-336 | shutdown makes a close due on exactly the current sessions |
| GatewayEffects.NoSendForgotten | app/api/websocket/device_gateway.py:80-91 | in every reachable state an execution inside a send is on its own session's wire |
| GatewayEffects.WireGoesOn | app/api/websocket/device_gateway.py:80-102 | whoever is on the wire can finish, and once it is free whoever waits can start |
| GatewayEffects.StageAllows | app/api/websocket/device_gateway.py:136-257 | which step the handler can take at each stage |
| GatewayEffects.WaysOut | app/api/websocket/device_gateway.py:258-279 | and which way out it has |
| Transport.WireStaysSound | app/api/websocket/device_gateway.py:80-102 | no way of asking for, obtaining or leaving the send lock breaks close-once and silence after it |
| Transport.StartEffect | app/api/websocket/device_gateway.py:80-102 | under the lock an open transport puts the frame or the close on the socket, a closed one does neither |
| Transport.AskEffect | app/api/websocket/device_gateway.py:86-94 | asking starts at once iff nobody has the lock or waits for it |
| Transport.WebSocketTransport.SendMessage | app/api/websocket/device_gateway.py:80-91 | a closed transport refuses; an open one starts the frame |
| Transport.WebSocketTransport.Close | app/api/websocket/device_gateway.py:93-102 | only the first close reaches the socket |
| Heartbeat.HandshakeAgrees | app/api/websocket/device_gateway.py:183-220 | while the loop sleeps the nonce is None; while a ping is sent or awaited, the event is set exactly when the nonce is None |
| Heartbeat.ClearsOnlyWhatItChecked | app/api/websocket/device_gateway.py:214-220 | after awaiting mark_seen the reader clears the very nonce it checked |
| Heartbeat.AcceptedPongReachesLoop | app/api/websocket/device_gateway.py:183-220 | an accepted pong, however early, lets the loop go back to sleep |
| Heartbeat.EarlyPongNeverAwaited | app/api/websocket/device_gateway.py:183-220 | a ping answered while still being written is never awaited |
| Heartbeat.PongsInjectIntoPings | app/api/websocket/device_gateway.py:183-220 | accepted pongs are distinct and each answers a sent ping, the latest one |
| Heartbeat.PongForPing | app/api/websocket/device_gateway.py:183-220 | while a ping is outstanding a pong with its nonce is accepted and, once marked, lets the loop go back to sleep; any other pong stops the reader |
| Heartbeat.PongEffect | app/api/websocket/device_gateway.py:214-216 | the reader accepts exactly the outstanding nonce and touches nothing of the loop |
| Heartbeat.ReaderGoesOn | app/api/websocket/device_gateway.py:217-220 | marking clears the nonce, sets the event and goes back to reading |
| Heartbeat.LoopEffect | app/api/websocket/device_gateway.py:183-202 | what the loop does when it wakes, when its ping is written or fails, and when it stops waiting |
| Heartbeat.Rounds | app/api/websocket/device_gateway.py:183-220 | a whole round leads from sleep to sleep, with a late pong or an early one |
| Heartbeat.NoncesRecorded | app/api/websocket/device_gateway.py:183-220 | the recorded nonces are the run's own pings and accepted pongs |
| Replay.Window.Remember | app/api/websocket/device_gateway.py:344-354 | an id is refused iff it is among the last 1,024 accepted; otherwise it is recorded |
| Replay.Accepted | app/api/websocket/device_gateway.py:344-354 | equal accepted ids are more than 1,024 positions apart |
| Replay.WindowSlides | app/api/websocket/device_gateway.py:344-354 | removing the oldest id from the set and appending keeps deque and set on the same recent ids |
| Replay.RecentDistinct | app/api/websocket/device_gateway.py:344-354 | the ids in the window are distinct, so removing one from the set is exact |
| Replay.RecentIsLast | app/api/websocket/device_gateway.py:344-354 | the window is the last 1,024 accepted ids in their order |
| Replay.AcceptedGrows | app/api/websocket/device_gateway.py:344-354 | one more inbound id extends the accepted history iff it is not recent |
| Replay.Remembered | app/api/websocket/device_gateway.py:344-354 | what one more inbound id does to the history, the deque and the set |
| CloseReason.TruncateIsLongestPrefix | app/api/websocket/device_gateway.py:301-305 | cutting the UTF-8 bytes and decoding with errors ignored gives the longest character prefix whose encoding fits |
| CloseReason.CloseReasonFits | app/api/websocket/device_gateway.py:301-305 | the result fits 123 bytes, is unchanged iff the reason fits, and truncating again changes nothing |
| CloseReason.CutDecodesToFitting | app/api/websocket/device_gateway.py:301-305 | decoding a cut encoding loses only the character that was split |
| CloseReason.CutCharacterIsDropped | app/api/websocket/device_gateway.py:301-305 | no cut of one character's bytes decodes to anything |
| CloseReason.EncodingIsRead | app/api/websocket/device_gateway.py:301-305 | the decoder reads back each encoded character whatever follows it (section 3 of RFC 3629) |
| CloseReason.DecodeUndoesEncode | app/api/websocket/device_gateway.py:301-305 | decoding an uncut encoding gives the text back |
| CloseReason.FittingIsLongest | app/api/websocket/device_gateway.py:301-305 | a prefix fits the limit iff it is no longer than the longest one |
| CloseReason.KnownEncodings | app/api/websocket/device_gateway.py:301-305 | the examples of section 7 of RFC 3629, and a bound of 125 bytes less the close code's two |
| CloseReason.BrokenBytesSkipped | app/api/websocket/device_gateway.py:301-305 | stray tails, overlong forms, surrogates and broken-off characters are skipped and the rest is read on |
| CloseReason.OverlongFormsSkipped | app/api/websocket/device_gateway.py:301-305 | overlong forms and code points past U+10FFFF are skipped |
| CloseReason.EncodingWidths | app/api/websocket/device_gateway.py:301-305 | the code points at which one more byte is needed |
| CloseReason.EncodeAppends | app/api/websocket/device_gateway.py:301-305 | text is encoded character by character |
| Tokens.IssuedTokenParses | app/infrastructure/security/credentials.py:45-79 | an issued token parses to its id iff its secret has at most 215 characters, and to nothing otherwise |
| Tokens.CanonicalParses | app/infrastructure/security/credentials.py:69-79 | printing a 128-bit id in canonical form (section 4 of RFC 9562) and parsing it gives the id back |
| Tokens.HexRoundTrip | app/infrastructure/security/credentials.py:69-79 | fixed-width hexadecimal digits denote the number they were printed from |
| Tokens.TokenSplits | app/infrastructure/security/credentials.py:69-79 | a token splits on periods into prefix, id text and secret |
| Tokens.TokenInjective | app/infrastructure/security/credentials.py:45-57 | different ids or secrets give different tokens |
| Tokens.IssuesExactly | app/infrastructure/security/credentials.py:45-57 | a token is issued iff its secret has at least 16 characters and no period, and is then prefix, id and secret between periods |
| Tokens.ParsesExactly | app/infrastructure/security/credentials.py:69-79 | an id is read only from three parts with the prefix first and a non-empty last, in at most 256 characters |
| Tokens.CanonicalLayout | app/infrastructure/security/credentials.py:45-57 | the id's text has its hyphens after 8, 12, 16 and 20 digits |
| Tokens.SplitRejoins | app/infrastructure/security/credentials.py:72-74 | splitting loses nothing but the separators |
| Tokens.DigitsExactly | app/infrastructure/security/credentials.py:75-78 | hexadecimal digits of both cases and nothing else |
| Tokens.ReadsDigitsExactly | app/infrastructure/security/credentials.py:75-78 | the number parser takes digits with single underscores between them and refuses everything else |
| Tokens.PrefixSkipped | app/infrastructure/security/credentials.py:75-78 | a 0x prefix, with an underscore after it or not, is skipped |
| Tokens.ParsesUuidExactly | app/infrastructure/security/credentials.py:75-78 | an id is 32 digits once urn:, uuid:, braces and hyphens are taken away |
| Tokens.BracesSkipped | app/infrastructure/security/credentials.py:75-78 | braces around an id are skipped |
| Domain.StripCutsSpaces | app/domain/devices/models.py:53-57 | stripping takes away spaces at the two ends and nothing else |
| Identity.LiveIsLatest | app/infrastructure/security/memory.py:53-84 | the abstract map holds x for d iff x was issued to d and nothing was issued or revoked for d since |
| Identity.LookupIsNames | app/infrastructure/security/memory.py:68-79 | looking up the parsed id and comparing digests finds d iff the token is d's latest unrevoked one |
| Identity.PoppingKeepsIndexed | app/infrastructure/security/memory.py:60-84 | dropping a device's tokens keeps the two maps mutually inverse |
| Identity.AddingKeepsIndexed | app/infrastructure/security/memory.py:63-65 | filing a new token keeps the two maps mutually inverse with singleton token sets |
| Identity.MemoryIdentity.Issue | app/infrastructure/security/memory.py:53-66 | issuing rotates: the new token becomes the device's only one; a collision or a bad secret changes nothing |
| Identity.MemoryIdentity.Authenticate | app/infrastructure/security/memory.py:68-79 | answers d iff the token is d's latest unrevoked token and at most 256 characters long |
| Identity.MemoryIdentity.Revoke | app/infrastructure/security/memory.py:81-84 | no token of the device is left |
| Identity.MemoryIdentity.PopTokens | app/infrastructure/security/memory.py:60-62 | the loop removes exactly the credentials of that device |
| Identity.SqlIdentity.Issue | app/infrastructure/security/database.py:53-82 | the upsert rotates the device's row or changes nothing, with the same abstract effect as the in-memory store |
| Identity.SqlIdentity.Authenticate | app/infrastructure/security/database.py:84-95 | answers as the in-memory store does |
| Identity.SqlIdentity.Revoke | app/infrastructure/security/database.py:97-103 | no row of the device is left |
| Identity.UpsertKeepsTabled | app/infrastructure/security/database.py:53-82 | one row a device and one device a token id |
| Pairing.CompensatedIsAtomic | app/infrastructure/security/memory.py:163-200 | with drawn ids the claim with issue, add and rollback is the atomic claim, committing iff nothing failed |
| Pairing.RollbackRestoresIffFresh | app/infrastructure/security/memory.py:188-198 | the rollback restores both stores iff the drawn device id was nobody's |
| Pairing.TransactionIsAtomicIffAnswered | app/infrastructure/security/database.py:231-254 | the transactional claim is the atomic claim iff its commit is answered |
| Pairing.InDoubtEnrolsTwice | app/infrastructure/security/database.py:231-254 | after a commit without an answer one challenge enrols two devices |
| Pairing.AcceptedExactly | app/infrastructure/security/memory.py:170-187 | a claim is accepted iff the challenge lives, the secret is its own, the name strips to 1 to 120 characters, the clock is aware and the token secret usable; the device has the stripped name, the challenge's grant and nothing live |
| Pairing.RefusedExactly | app/infrastructure/security/memory.py:170-179 | why a claim is refused |
| Pairing.RefusalEffect | app/infrastructure/security/memory.py:170-179 | an expired challenge goes, a wrong secret is counted or is the last permitted one, all else stays |
| Pairing.AtomicEffect | app/infrastructure/security/memory.py:163-200 | the atomic claim uses the challenge up and adds one device and one credential, or leaves all three |
| Pairing.UnacceptedAlike | app/infrastructure/security/memory.py:170-179 | both services treat a claim that is not accepted alike, and touch neither store |
| PairingRuns.OneCredentialAChallenge | app/infrastructure/security/memory.py:163-200 | over any run a challenge hands out at most one credential and counts at most max_claim_attempts wrong secrets; devices left registered are those handed out, those in doubt and one whose commit is not answered yet |
| PairingRuns.OneDeviceAChallenge | app/infrastructure/security/memory.py:163-200 | as long as no commit's answer is lost, as in memory, a challenge registers exactly the devices it hands out or has committed, at most one |
| PairingRuns.RunRefinesAtomic | app/infrastructure/security/memory.py:163-200 | interleaved with revocations and saves, a step of a claim shows on the settled stores as the atomic claim or as nothing, iff it does not cut the claim off inside issue or inside the commit |
| PairingRuns.ClaimRefinesAtomic | app/infrastructure/security/memory.py:163-200 | the same for one step |
| PairingRuns.CutIssueNeverRefines | app/infrastructure/security/memory.py:187-196 | a claim cancelled inside issue keeps the token and the challenge; no atomic claim does that |
| PairingRuns.LoseAnswerNeverRefines | app/infrastructure/security/database.py:235-256 | a commit whose answer is lost gives the used challenge back |
| PairingRuns.TransactRefines | app/infrastructure/security/database.py:235-256 | a transaction shows as the atomic claim at its commit, before its task resumes; with its answer it is the committed transactional claim, without it the one in doubt |
| PairingRuns.InFlightStaysDrawn | app/infrastructure/security/memory.py:181-198 | as long as nobody names a device before it is visible, the ids drawn for a hidden one stay nobody else's |
| PairingRuns.CountedPreserved | app/infrastructure/security/memory.py:163-200 | the counting invariant of every challenge is kept by every step |
| PairingRuns.CountersTally | app/infrastructure/security/memory.py:163-200 | the counters are the numbers of answered, refused, registering and doubtful claims of the run |
| PairingRuns.ClaimStages | app/infrastructure/security/memory.py:181-200 | what each stage of a claim, and each step beside it, does to challenges, devices and tokens |
| PairingRuns.StageAllows | app/infrastructure/security/memory.py:163-200 | what can happen at each stage of a claim, and when others may name its device |
| PairingStores.Challenges.Create | app/infrastructure/security/memory.py:130-161 | reports which check failed, or files a challenge that lets in exactly its secret until it expires, grants what it was created with, and is the creation event of the pairing machine; the SQL service does the same (app/infrastructure/security/database.py:175-204) |
| PairingStores.FiledOpens | app/infrastructure/security/memory.py:163-185 | a filed challenge expires at its time, refuses every other secret before that, and never refuses its own as wrong |
| PairingStores.MemoryPairing.Claim | app/infrastructure/security/memory.py:163-200 | on the two real stores the claim is the compensated claim, and a returned token is the device's live one |
| PairingStores.Pair | app/infrastructure/security/memory.py:130-200 | a challenge is created, claimed once with its secret, and the token that comes back authenticates as the device registered under the claim's name with the challenge's grant; a second claim is declined |
| PairingStores.MemoryPairing.Enroll | app/infrastructure/security/memory.py:187-198 | issue and add both happen, or both stores lose the device id |
| PairingStores.Challenges.Refuse | app/infrastructure/security/memory.py:170-179 | an expired challenge goes; a wrong secret is counted and the last permitted one removes the challenge; the SQL service does the same (app/infrastructure/security/database.py:213-224) |
| PairingStores.TakenIsIndexed | app/infrastructure/security/memory.py:57-59 | a credential is filed under an id iff some device's live token has that id |
| PairingStores.SqlPairing.Claim | app/infrastructure/security/database.py:206-257 | the claim is the transactional claim; a returned device was paired before the challenge expired |
| PairingStores.SqlPairing.Insert | app/infrastructure/security/database.py:233-254 | both rows are inserted, or none if a key is taken or the commit fails |
| Registry.SurvivesRowIffDurable | app/infrastructure/repositories/devices.py:129-168 | to_domain(record_from_domain(d)) equals d iff d carries no live state and, on a wall-clock backend, its stamps are in UTC |
| Registry.RegistriesAgree | app/infrastructure/repositories/devices.py:83-126 | over any list of operations on devices the registries agree throughout iff everything written is durable |
| RegistryRuns.ServiceRunsAgree | app/infrastructure/repositories/devices.py:83-160 | over every run of pairing, rollback and revocation from empty stores, each store writing from its own reads, reads can never tell the registries apart iff every act that writes is stamped in UTC or the backend keeps zones; then every stored device equals what its row gives back, and any further act is answered alike |
| RegistryRuns.ActAgreesIffClocked | app/application/devices/service.py:110-129 | one act on stores that are alike is answered alike, and leaves them indistinguishable iff it writes nothing or its clock was right |
| RegistryRuns.RevokedAlike | app/application/devices/service.py:116-124 | equal devices read from the two stores and revoked at one moment are equal again, and survive their rows iff the clock was right |
| RegistryRuns.WrittenAlike | app/infrastructure/repositories/devices.py:83-119 | equal devices written each to its store are seen alike iff they are durable |
| RegistryRuns.GetBoth | app/infrastructure/repositories/devices.py:94-97 | asked for the same device, indistinguishable registries give equal devices or nothing, both |
| RegistryRuns.RowsReadLasting | app/infrastructure/repositories/devices.py:144-168 | whatever a row gives back survives a row |
| RegistryRuns.ActsInMemory | app/infrastructure/devices/memory.py:75-102 | what pairing, rolling back, reading and revoking store and answer |
| RegistryRuns.RevokedExactly | app/application/devices/service.py:116-124 | revoking stamps the device, empties its advertised set and keeps the rest |
| RegistryRuns.HydratedExactly | app/application/devices/service.py:230-245 | a listed device is the stored one with its connection's status, capabilities and time laid over it |
| Registry.OperationKeepsIndistinguishable | app/infrastructure/repositories/devices.py:83-126 | one add, save or remove is answered alike, and keeps the stores indistinguishable iff what it writes is durable |
| Registry.MadeIsWellMade | app/domain/devices/models.py:41-78 | a constructed device passes its own construction unchanged |
| Registry.GrantsRoundTrip | app/infrastructure/repositories/devices.py:129-160 | the sorted list of grants denotes the same set |
| Registry.MadeExactly | app/domain/devices/models.py:41-78 | a device is made iff its stripped name has 1 to 120 characters, its stamps are aware and it is revoked iff stamped; it is what was given with the name stripped |
| Registry.OperationEffect | app/infrastructure/repositories/devices.py:83-126 | adding needs a new id, saving and removing a known one; exactly that id changes |
| Registry.RowEffect | app/infrastructure/repositories/devices.py:129-160 | what a row keeps, and what device comes back from one |
| Registry.UtcEffect | app/infrastructure/repositories/devices.py:163-168 | a bare wall clock is read as UTC, an aware stamp stays the same instant |
| Registry.GrantsSorted | app/infrastructure/repositories/devices.py:129-137 | grants are stored in the order of their values |
| Registry.MemoryRegistry.Add | app/infrastructure/devices/memory.py:75-79 | adds, or reports the id as taken |
| Registry.MemoryRegistry.Save | app/infrastructure/devices/memory.py:94-98 | overwrites a known device only |
| Registry.MemoryRegistry.Remove | app/infrastructure/devices/memory.py:100-102 | removes and says whether it was there |
| Registry.SqlRegistry.Add | app/infrastructure/repositories/devices.py:83-92 | inserts a row, or reports the id as taken |
| Registry.SqlRegistry.Save | app/infrastructure/repositories/devices.py:108-119 | updates a known row only |
| Registry.SqlRegistry.Remove | app/infrastructure/repositories/devices.py:121-126 | deletes and says whether it was there |
| Registry.ListingIsUnique | app/application/devices/service.py:99-102 | two strict listings of the same devices in the service's order are equal, whatever order the store gave |
| Registry.BeforeTotal | app/application/devices/service.py:102 | the key is total: of two devices with different ids one is before the other |
| Registry.BeforeExactly | app/application/devices/service.py:102 | folded name first, the id's text among equal names |
| Registry.TextBeforeExactly | app/application/devices/service.py:102 | string order: a shorter beginning, or the smaller character at the first difference |
| Registry.SortedIsListing | app/application/devices/service.py:102 | sorting devices with distinct ids by the key gives a strict listing |
| RegistryRuns.ServiceListingsAgree | app/application/devices/service.py:99-102 | after any run, hydrating and sorting what either registry lists gives equal lists |
| Registry.BeforeAsymmetric | app/application/devices/service.py:99-102 | the service's order puts no two devices before each other |
| Programs.ProgramsOrdered | app/application/devices/service.py:110-142 | every operation takes its locks in descending rank, waits for nothing under a store lock, and joins no task while holding one |
| Programs.RevokeOrdered | app/application/devices/service.py:110-129 | revoke_device: lifecycle, then registry, identity, manager and transport one at a time |
| Programs.ConnectOrdered | app/application/devices/service.py:131-142 | connect_device: lifecycle, then registry, manager and the replaced transport one at a time |
| Programs.ExecuteOrdered | app/infrastructure/devices/memory.py:260-288 | execute: send lock, then manager and transport one at a time, and the manager again in cleanup |
| Programs.ClaimsOrdered | app/infrastructure/security/memory.py:169-200 | the claim and its rollback take store locks under the pairing lock only |
| Programs.GatewayOrdered | app/api/websocket/device_gateway.py:106-279 | a whole socket session, heartbeat included, keeps to the order |
| Programs.GatherOrdered | app/infrastructure/devices/memory.py:330-336 | the closes of shutdown are joined without holding a lock |
| Programs.RevokeLocks | app/application/devices/service.py:110-129 | revocation takes registry, identity, manager and transport locks, all under the lifecycle lock |
| Programs.ConnectLocks | app/application/devices/service.py:131-142 | so does connecting, without the identity |
| Programs.ExecuteLocks | app/infrastructure/devices/memory.py:229-292 | the locks of an execution |
| Programs.ClaimLocks | app/infrastructure/security/memory.py:169-200 | the claim takes both store locks under the pairing lock |
| Programs.ReaderLocks | app/api/websocket/device_gateway.py:206-257 | the locks of a socket reader |
| Programs.ShutdownLocks | app/infrastructure/devices/memory.py:319-336 | the locks of shutdown are the manager's and those of the transports it closes |
| Scheduler.InvPreserved | app/infrastructure/devices/memory.py:260-288 | every step of first-come first-served locking, raising, unwinding, forking and cancelling keeps owners, queues and stacks consistent |
| Scheduler.StoreLocksAreFree | app/infrastructure/devices/memory.py:242-264 | a running task finds every store lock free, so taking it does not suspend |
| Scheduler.UnwindExactly | app/infrastructure/security/memory.py:188-198 | an error passes plain code, runs the handlers that catch its kind and every cleanup, and goes on where they say |
| Scheduler.LockExactly | app/infrastructure/devices/memory.py:260-264 | entering takes a free lock at once or waits at the end of its queue |
| Scheduler.UnlockExactly | app/infrastructure/devices/memory.py:260-264 | leaving gives the lock back, in calm and in error |
| Scheduler.ResumeExactly | app/infrastructure/devices/memory.py:260-284 | a task goes on with the value or error it waited for, the lock it was first in line for, or the end of its child |
| Scheduler.CancelExactly | app/infrastructure/devices/memory.py:285-292 | a cancelled task raises where it stands, out of any queue |
| SchedulerRuns.StoreLocksNeverShared | app/infrastructure/devices/memory.py:135-362 | whenever tasks can be switched, all store locks are free and nobody queues for one |
| SchedulerRuns.StoreAccessIsUninterrupted | app/infrastructure/security/memory.py:57-66 | from asking for a store lock until it is released no other task runs and no cancellation arrives |
| SchedulerRuns.IssueNeverCutOff | app/infrastructure/security/memory.py:187-191 | a claim over the in-memory identity goes from asking for its lock to the protection of the handler, or to an error of issue itself, without a switch or a cancellation |
| SchedulerRuns.StoreHolderGoesOn | app/infrastructure/devices/memory.py:242-264 | while a task holds a store lock only that task can step, and it keeps the processor |
| SchedulerRuns.NoWaitCycle | app/application/devices/service.py:110-142 | no reachable state has a circle of tasks each waiting for a lock or an end of the next |
| SchedulerRuns.MutualExclusion | app/infrastructure/devices/memory.py:260-275 | no two tasks ever hold the same lock |
| SchedulerRuns.FirstComeFirstServed | app/infrastructure/devices/memory.py:260-275 | of two tasks waiting for a lock the later one is never served first |
| SchedulerRuns.SomeoneRunnable | app/infrastructure/devices/memory.py:260-288 | whoever a task waits for, directly or not, can go on |
| SchedulerRuns.NothingGetsStuck | app/infrastructure/security/memory.py:169-200 | from every reachable state all tasks can still finish, without a cancellation or an error |
| SchedulerRuns.EveryScheduleFinishes | app/infrastructure/devices/memory.py:260-288 | from every reachable state every schedule, with whatever errors and cancellations, ends within its budget unless new tasks start or loops go round again; one that only a disturbance can continue has finished every task |
| SchedulerRuns.SchedulesEnd | app/infrastructure/devices/memory.py:260-288 | each step of such a schedule uses up some of the budget |
| SchedulerRuns.CanFinish | app/api/websocket/device_gateway.py:86-102 | the schedule that finishes them |

## Left out

- HTTP routes, request schemas, dependency wiring, the bearer header, the language model, prompts, readiness, migrations and configuration: input and output, wrappers or single checks.
- Message parsing and validation: inbound messages are taken as well formed; only their session, id and kind matter.
- HMAC, randomness and constant-time comparison: a free constructor and drawn values.
- SQL engines: tables are keyed maps with an atomic commit; connection pools are not locks of the model.
- GatewayRuns.NothingAfterClose: speaks of the transport; the closes that `_receive_message` issues directly on the web socket (app/api/websocket/device_gateway.py:324 and 331) are outside it.
- Transport.WireStaysSound: who gets a free send lock next is left open here (any queued actor); the queues of the lock machine are first-come first-served.
- Heartbeat.AcceptedPongReachesLoop: the ping's timeout may still fire instead, as it may in `asyncio.wait_for`.
- CommandRuns.ReplyCorrelated: says nothing about a reply that was accepted but whose caller timed out or was cancelled; the code promises nothing there.
- CommandRuns.GateSound: the command's capability may have been withdrawn since registration; the code checks it only at registration.
- LifecycleRuns.GrantsNeverExceeded: the action and id checks of `DeviceCommand` other than stripping are one flag of the dispatch step; command arguments are not modelled.
- Tokens.CanonicalParses: Python's `int` also accepts non-ASCII decimal digits, which the parser modelled here refuses; no printed id contains one.
- PairingStores.MemoryPairing.Claim: where adding fails or the claim is cancelled is an argument; interleaving inside the claim, and a cancellation inside issue, are in `PairingRuns`.
- PairingStores.SqlPairing.Claim: how the commit ends is an argument. The naive-clock check of `create` is not modelled: clocks are aware.
- RegistryRuns.ServiceListingsAgree: sorting itself is not implemented, only what it promises; case folding and the text of an id are arguments, the latter injective.
- SchedulerRuns.NothingGetsStuck: sockets, timers, futures and the database are assumed to answer, and loops to be left; data decides nothing in the lock machine, so it has more runs than the code.
- Executions.Executor.Step: the send itself is not on the manager object; how it ends is the event.
- DeviceService has no fields that change besides its lock, so it is a state machine over the stores and not a class; the same holds for the reader and heartbeat loops, whose interleaving is what matters.
