# MDM server: verified model

A Dafny model of the device-management server's connection hub and of the life of devices, commands and
mirror sessions around it, with proofs of what every run of it keeps.

## What is modelled

* **Clients and hub** (`Client.dfy`, `Hub.dfy`): the per-device client with its 64-slot send queue, its
  close-once flag and its write pump; the hub's registry, dashboards and mirror sessions. Each operation is a
  class method that is proved to change the hub's abstract state exactly as a specification function says. The
  same functions are the steps of the machine below; `HubState<K>` is generic in what identifies a client (an
  object in the class, a connection number in the machine).
* **The server as a step machine** (`Server.dfy`): device handlers and dashboard handlers with program counters
  in the order the handlers run, write pumps, senders that hold a client they looked up earlier, the devices
  table, the clock and the inactivity sweep. Every lock-protected section, SQL statement and connection write is
  one step. A step that is not enabled changes nothing, so a run is any sequence of steps, and a theorem about
  `After(init, steps)` for all `steps` is a theorem about every interleaving. `ServerMoves.dfy` says what each step
  moves and what can always go on; `ServerRegistry.dfy`, `ServerQueues.dfy`, `ServerPresence.dfy` and
  `ServerMirror.dfy` prove what runs keep.
* **Commands** (`CommandTable.dfy`, `CommandLogs.dfy`, `CommandRuns.dfy`, `CommandAccounting.dfy`,
  `CommandLifecycle.dfy`, `CommandMoves.dfy`): the command table's statements, and a machine in which dispatching
  requests, device results and the timeout sweep interleave. `CommandService.dfy` and `CommandHandler.dfy` hold the
  admission, creation, dispatch and result methods themselves, `CommandSends.dfy` what a dispatch does to the hub.
* **Both together** (`Deliveries.dfy`, `System.dfy`, `SystemPresence.dfy`): the two machines side by side over one
  devices table and one clock, joined where a request lists devices and where it looks up a client and later offers
  it the command. Each half of a run is a run of its own machine, so every theorem about the server or the commands
  holds here too, and the outcome of a dispatch is no longer open but what the hub's client answers.
* **Locks** (`Locks.dfy`): the RWMutex with writer preference and the close-once of every client, and goroutines
  that execute any sequence of hub calls.
* **Smaller cores**: keepalive timing (`Keepalive.dfy`), the devices table (`DeviceTable.dfy`), the status merge
  (`StatusMerge.dfy`), account replacement (`Accounts.dfy`), screenshot decoding (`Screenshot.dfy`).

## Assumptions

* NOW() and time.Now() read one monotone clock; SQL statements are atomic; a database write whose error the
  server ignores succeeds.
* The transactions that replace accounts do not overlap for one device. Two handlers of a device could otherwise both
  commit under READ COMMITTED and leave the union of their lists.
* Connection reads and writes eventually return. A write may succeed or fail at any moment; nothing relies on a
  closed connection refusing writes.
* Identities generated by the database and connections are never reused.
* A sweep reads the clock first and runs its UPDATE at some later instant. "Sweeps at most P apart" means that the
  clock reading of the last completed sweep is at most P old.
* The outcome of a dispatch's SendToDevice is left open in the command machine alone; the joined machine and the
  handler methods tie it to the hub. Only dispatching requests send commands to devices.

## Where the code does not do what one might expect

* A disconnecting handler unregisters the *device*, so an old connection's exit can remove its successor
  (`ServerRegistry.ReconnectUndoneByPredecessor`); exactly when this hurts is `ServerRegistry.UnregisterSparesOthers`.
* Marking a command sent does not look at its status, so a result that arrives before the mark is overwritten and
  may end as a timeout (`CommandLifecycle.EarlyResultEndsAsTimeout`); `CommandLifecycle.VerdictLostOnlyToMark` says
  that this is the only way a verdict is lost.
* A failed frame write ends the session of whoever owns the device by then
  (`ServerMirror.NewSessionLostToOldFailure`); it spares every other dashboard exactly if none has taken the device
  over since the frame's lookup (`ServerMirror.FailureSparesOthers`).
* The comment above the screenshot decoder announces the lenient decoder; the code tries the padded one first and
  the unpadded one second. Mirror frames get the padded decoder only (`Screenshots.UnpaddedFrameDecodes`).

## Model

| member | source | states |
|---|---|---|
| Clients.Client.Send | internal/websocket/client.go:50-66 | records one offer; an open client takes the message if there is room and drops it silently otherwise, a closed full one refuses it; the error is exactly a recorded refusal |
| Clients.SendOffersOnce | internal/websocket/client.go:56-65 | every send is such an offer, and a closed client with room may end either way |
| Clients.Client.Close | internal/websocket/client.go:68-73 | closing takes effect once and never reopens |
| Clients.WakeMoves | internal/websocket/client.go:115-137 | a wake-up with data writes the head of the queue or loses it to a failed write; the pump leaves exactly after a failed write, a failed ping or an observed close |
| Clients.WakesDrain | internal/websocket/client.go:116-126 | as many successful wake-ups as messages wait write the whole queue in order |
| Clients.Client.WritePump | internal/websocket/client.go:109-139 | for any script of wake-ups and write results the pump does what they say, leaves at the first failure or observed close, and then has closed the client |
| Clients.SendConserves | internal/websocket/client.go:50-66 | an offer keeps first-in first-out conservation and the bound of 64 |
| Clients.PumpConserves | internal/websocket/client.go:109-139 | every pump step keeps conservation, losing at most the message of one failed write |
| Clients.WakesConserve | internal/websocket/client.go:109-139 | a whole pump run keeps conservation |
| Clients.OffersBalance | internal/websocket/client.go:56-65 | offered = accepted + dropped + refused |
| Hubs.RegisteringByField | internal/websocket/hub.go:39-52 | a registration moves its own device's entry and closes the client that was current there; every other entry, client, dashboard and session is as before |
| Hubs.Hub.RegisterDevice | internal/websocket/hub.go:39-52 | does exactly that |
| Hubs.UnregisteringByField | internal/websocket/hub.go:55-65 | an unregistration removes the device's entry, closes its client and leaves all else alone |
| Hubs.Hub.UnregisterDevice | internal/websocket/hub.go:55-65 | whatever client is current for the device is closed and removed |
| Hubs.Hub.RegisterDashboard | internal/websocket/hub.go:68-73 | adds the dashboard and nothing else |
| Hubs.Hub.UnregisterDashboard | internal/websocket/hub.go:76-81 | removes the dashboard and leaves its sessions alone |
| Hubs.SendingByField | internal/websocket/hub.go:84-94 | a send offers the message once to the current client and to nobody else, and returns nil exactly if there is one and the offer it recorded is not a refusal |
| Hubs.Hub.SendToDevice | internal/websocket/hub.go:84-94 | errs exactly if the device has no client or its latest offer is a refusal: never for an open client, always for a closed full one |
| Hubs.Hub.BroadcastToDashboards | internal/websocket/hub.go:97-112 | in any map order every registered dashboard whose write does not fail gets the message exactly once |
| Hubs.Hub.StartMirrorSession | internal/websocket/hub.go:174-179 | the dashboard takes over the device's session |
| Hubs.Hub.StopMirrorSession | internal/websocket/hub.go:182-187 | the device has no session afterwards |
| Hubs.CleanupStep | internal/websocket/hub.go:193-203 | one visit of the cleanup loop, in any order, advances the same order-free result |
| Hubs.Hub.StopMirrorSessionsForDashboard | internal/websocket/hub.go:190-204 | the deleting loop's result does not depend on the map's iteration order |
| Hubs.CleanupIsExact | internal/websocket/hub.go:190-204 | exactly the dashboard's sessions go, each affected device's client is offered one STOP_MIRROR, no other client is touched |
| Hubs.Hub.SendMirrorFrame | internal/websocket/hub.go:207-221 | the frame goes to the session's dashboard; a failed write stops the device's session |
| ServerRegistry.OneOpenClientPerDevice | internal/websocket/hub.go:39-65 | in every run an open registered client is its device's entry, so no device has two open registered connections |
| ServerRegistry.NoConnectionLeaks | internal/websocket/client.go:76-80 | every entry belongs to a handler that has not unregistered; no handler left means no entry |
| ServerRegistry.TrailingCloseIsNoOp | internal/websocket/client.go:77-80 | the read pump's own Close after unregistering finds the client closed in every run |
| ServerRegistry.UnregisterSparesOthers | internal/websocket/hub.go:55-65 | an exiting read pump leaves all other connections open if and only if the entry it removes is not another's open client |
| ServerRegistry.ReconnectUndoneByPredecessor | internal/websocket/client.go:76-80 | the run in which the newest connection is removed and closed by its predecessor's exit |
| ServerRegistry.LeavesOnlyByOwnExit | internal/websocket/client.go:76-80 | in runs without overlapping connections of a device, a client leaves the registry only by its own pump's exit |
| ServerRegistry.DashboardLeavesCleanly | internal/websocket/handler.go:126-131 | in every run the cleanup of a departing dashboard is exact |
| ServerMoves.StepsMoveClients | internal/websocket/hub.go:39-94 | in every run a step offers a client its message, runs its pump, closes it because it is displaced, or leaves it exactly as it was |
| ServerMoves.ClosesOnlyBy | internal/websocket/hub.go:39-65 | in every run an open client closes in a step if and only if that is another connection's registration for its device, an unregistration of its device, or its own pump's exit |
| ServerMoves.RegistryMoves | internal/websocket/hub.go:39-65 | only registrations and unregistrations move the registry, and only at their own device |
| ServerMoves.HeldMessagesMove | internal/websocket/hub.go:84-94 | a sender holds the client its lookup found, with its message, until it delivers |
| ServerMoves.SessionMoves | internal/websocket/hub.go:174-221 | a looping dashboard's start takes a session, its stop, its departure or a failed write ends one, nothing else touches it |
| ServerMoves.DashboardCanLeave | internal/websocket/handler.go:122-131 | a dashboard can stop its sessions and unregister, after which nothing mirrors to it |
| ServerMoves.FrameIsRelayed | internal/websocket/hub.go:207-215 | a frame of a mirrored device is looked up for the session's owner |
| ServerMoves.WrittenFrameIsNoted | internal/websocket/hub.go:215-216 | a successful frame write goes to the dashboard looked up and changes nothing in the hub |
| ServerMoves.HandlerCanReturn | internal/websocket/handler.go:50-72 | from every state a device handler can reach its return by steps of its own |
| ServerMoves.PumpCanDrain | internal/websocket/client.go:109-126 | from every state a selecting pump can write out its queue in order by steps of its own |
| ServerMoves.PumpExitClosed | internal/websocket/client.go:110-113 | in every run a client whose pump is gone is closed |
| ServerQueues.DeliveryIsFifo | internal/websocket/client.go:50-139 | in every run, per client: accepted = written, then at most one lost, then in flight, then queued; drops only at 64 on an open client, refusals only on a closed one |
| ServerPresence.OnlineMeansLiveHandler | internal/websocket/handler.go:50-72 | from an all-offline start an online device has a live handler, so with all handlers returned it is offline |
| ServerPresence.TurningOnlineIsLive | cmd/server/main.go:222-223 | only a device's own live handler turns it online |
| ServerPresence.LeavingIsOffline | internal/websocket/handler.go:71-72 | a handler stops being live only in the step that marks the device offline |
| ServerPresence.RefreshIsSeen | internal/repository/device_repo.go:120-134 | a connect, heartbeat, info report or disconnect of a known device sets its last_seen to now; the first two turn it online, the last offline, an info report leaves presence alone, and nobody else's presence moves |
| ServerPresence.LastSeenIsLastRefresh | cmd/server/main.go:222-281 | over whole runs last_seen is the instant of the device's latest connect, heartbeat, info report or disconnect; neither sweeps nor other devices move it |
| ServerPresence.StalenessBound | internal/repository/device_repo.go:165-174 | from any table, after the first sweep, an online device was seen at most timeout + period ago |
| ServerPresence.ThreeMinuteBound | cmd/server/main.go:357-368 | the same with the server's own threshold and period |
| ServerPresence.SweepSparesRecentlySeen | internal/repository/device_repo.go:165-174 | no sweep takes offline a device seen within the timeout |
| ServerMirror.SessionsNameRegisteredDashboards | internal/websocket/handler.go:122-157 | in every run sessions name registered dashboards, and none whose teardown has begun |
| ServerMirror.OwnsAfterEvent | internal/websocket/hub.go:174-204 | how one start, stop, failure or departure changes who owns a session |
| ServerMirror.MirroringFollowsHistory | internal/websocket/hub.go:174-221 | in every run the sessions equal what the history of starts and ends says, and every relayed frame went to the owner at its lookup |
| ServerMirror.TakenOverMeansOther | internal/websocket/hub.go:174-221 | the owner at a frame's lookup has lost the session to another dashboard if and only if another one started after the lookup and nothing has ended that |
| ServerMirror.FailureSparesOthers | internal/websocket/hub.go:217-220 | in every run the stop after a failed write removes the device's own session only, and leaves every dashboard but the one that failed alone if and only if no other dashboard has taken the device over since the lookup |
| ServerMirror.NewSessionLostToOldFailure | internal/websocket/hub.go:207-221 | the run from a server just started in which a write failing on a former owner's dashboard ends the new owner's session |
| CommandTable.CommandRepo.Create | internal/repository/command_repo.go:22-35 | a created command is PENDING without completion time; a failed INSERT changes nothing |
| CommandTable.CommandRepo.UpdateStatus | internal/repository/command_repo.go:38-45 | overwrites status, message, result and completion time of that row whatever its status |
| CommandTable.CommandRepo.SetSent | internal/repository/command_repo.go:48-52 | sets SENT whatever the status, touching nothing else |
| CommandTable.CommandRepo.MarkTimeouts | internal/repository/command_repo.go:98-107 | times out exactly the SENT rows created before the cutoff, completing them now, leaves all others alone, and counts the rows it changed |
| CommandTable.StatementsByColumn | internal/repository/command_repo.go:38-51 | what recording a verdict and marking sent do to each column, and that no other row moves |
| CommandTable.SweepByColumn | internal/repository/command_repo.go:98-107 | a row that was SENT and created before the cutoff is TIMEOUT, completed now, and otherwise as it was; every other row is untouched |
| CommandTable.DeletionByRow | migrations/00001_init.sql:38-41 | deleting a device deletes exactly its commands |
| CommandLogs.CollectPicks | internal/service/command_service.go:83-90 | the logs are those of exactly the members whose insert succeeded, at ascending places of the listing |
| CommandLogs.CollectsOnePerMember | internal/service/command_service.go:78-92 | for any listing of a group: logs for online members of the group only, no device twice, by ascending name, one for each scanned member whose insert succeeded and none for any other |
| CommandAccounting.BulkDispatchAccounting | internal/handler/command_handler.go:106-124 | in every run a group request has exactly one log per scanned online member whose insert succeeded, in group order, and none for others; sent counts the nil sends, and exactly those logs are marked once |
| CommandAccounting.CommandsHaveOneOwner | internal/service/command_service.go:83-91 | no command belongs to two requests or two places |
| CommandLifecycle.SentIsBounded | internal/repository/command_repo.go:98-107 | a command is SENT at most period after the later of created + threshold and its single mark |
| CommandLifecycle.TwoMinuteBound | cmd/server/main.go:370-373 | the same with the server's own threshold and period |
| CommandLifecycle.RunMarksOnce | internal/handler/command_handler.go:74-75 | no command is marked sent twice |
| CommandLifecycle.CompletionTimes | internal/repository/command_repo.go:98-107 | PENDING has no completion time, terminal statuses have one, a TIMEOUT's lies beyond created + threshold |
| CommandLifecycle.AfterMarking | internal/repository/command_repo.go:38-51 | after its mark a command is never PENDING, does not return to SENT, and only a later result replaces a verdict |
| CommandLifecycle.NeverSentAgain | internal/repository/command_repo.go:48-51 | over whole runs a marked command past SENT stays past it |
| CommandLifecycle.CompletionIsNeverErased | internal/repository/command_repo.go:38-45 | over whole runs a completion time is never erased |
| CommandLifecycle.VerdictLostOnlyToMark | internal/repository/command_repo.go:48-51 | a verdict is lost to something other than a later result if and only if that is the command's own mark |
| CommandLifecycle.DispatchAwaitsMark | internal/handler/command_handler.go:62-75 | the state between a nil send and its mark is reached from the start |
| CommandLifecycle.EarlyResultEndsAsTimeout | internal/handler/command_handler.go:69-75 | from there a success that lands before the mark ends as TIMEOUT |
| CommandLifecycle.RowsComeFromRequests | internal/service/command_service.go:53-93 | in every run each row of the table sits at one place of one request's logs, for the device listed there, with the request's type and payload |
| CommandMoves.StepsMoveRows | internal/repository/command_repo.go:22-107 | in every run a step records a reported verdict on a row, marks it, sweeps it, deletes it with its device or leaves it as it was, and rows appear only as new pending commands of a scanned member, created now |
| CommandMoves.ResultIsRecorded | internal/service/command_service.go:101-133 | a result read before is recorded as reported, success as SUCCESS and failure as FAILED, whatever happened in between |
| CommandMoves.CompletionsLieInThePast | internal/repository/command_repo.go:38-107 | in every run nothing is created or completed in the future, or completed before it was created |
| CommandMoves.SweepSparesYoung | internal/repository/command_repo.go:98-107 | in every run no sweep changes a command whose age is at most the timeout, and a sweep takes a SENT one exactly if it was older at the sweep's clock reading |
| CommandMoves.OpeningStarts | internal/handler/command_handler.go:80-106 | a request starts with its listing and nothing done, and touches no other |
| CommandMoves.StepMovesRequest | internal/handler/command_handler.go:106-119 | how far each step brings a request: a scan its insert and log, a dispatch its outcome, a mark its count |
| CommandMoves.RunningRequestCanFinish | internal/handler/command_handler.go:106-119 | from every state of every run a request can scan every member, send every log and mark every nil send by steps of its own |
| System.RunsProject | internal/websocket/hub.go:84-94 | each half of a run of the joined machine is a run of the server and a run of the commands |
| System.SentCommandsAreAccountable | internal/handler/command_handler.go:62-75 | in every run a command whose SendToDevice returned nil was taken by a client of its own device and is written, lost in a failed write, in flight or queued there, or was dropped at 64 messages |
| System.CommandsReachOnlyTheirDevice | internal/handler/command_handler.go:106-119 | in every run no command is offered to another device or twice, and its dispatch counts as failed if and only if the one offer was refused |
| System.StatusTellsDelivery | internal/handler/command_handler.go:62-75 | in every run a SENT or TIMEOUT row was taken by its device's client or dropped at 64 messages; a row still PENDING after its request finished was taken by no client |
| System.OpenClientTakesCommand | internal/websocket/client.go:56-66 | in every run, if the client a request looked up is open with room when the send happens, whatever ran in between, the command joins its queue and the dispatch counts as sent |
| System.LookupFinds | internal/websocket/hub.go:84-94 | a request's lookup holds the current client and the command, or ends the dispatch with an error if there is no client |
| System.RequestsOpenFromTable | internal/service/command_service.go:53-93 | requests list the devices table as it is when they open |
| System.OwnStepsAreTaken | internal/service/command_service.go:83-90 | every step of one half not shared with the other is taken, except an INSERT for a deleted device |
| SystemPresence.HalvesAgree | migrations/00001_init.sql:38-41 | in every run both halves share one clock and every command row's device exists |
| SystemPresence.CommandsNeedLiveHandlers | internal/service/command_service.go:53-93 | from an all-offline start, in every run, commands exist only for devices that were shown online and had a live handler at an earlier instant of that run |
| CommandServices.CommandService.SendCommand | internal/service/command_service.go:53-69 | which check fails first decides the error; only an admitted command is created |
| CommandServices.LogsCreateExactly | internal/service/command_service.go:83-90 | logs with new, distinct identities each get their own pending row, and every row there was is untouched |
| CommandServices.CommandService.BulkSendCommand | internal/service/command_service.go:72-93 | errs for a forbidden type or a failed listing and then changes nothing; otherwise one pending command per online member of the group whose INSERT succeeds, in listing order, none for others, no other row touched |
| CommandServices.CommandService.MarkSent | internal/service/command_service.go:96-98 | marks that command |
| CommandServices.CommandService.HandleResult | internal/service/command_service.go:101-133 | status, message, result and completion time of that row alone become what was reported, SUCCESS or FAILED; a saved screenshot becomes the device's file and a placeholder, anything else is kept as it came |
| CommandHandlers.CommandHandler.Send | internal/handler/command_handler.go:47-77 | created, offered to the device and marked if the offer recorded there is no refusal; left PENDING if there is no client or it refused; or nothing at all |
| CommandSends.SendAllSendsExactly | internal/handler/command_handler.go:108-118 | sending to distinct devices offers each device's client its own command once and changes nothing else in the hub |
| CommandSends.SendsAreIndependent | internal/handler/command_handler.go:108-118 | for distinct devices each send's outcome is what it would have been on its own |
| CommandHandlers.CommandHandler.BulkSend | internal/handler/command_handler.go:80-125 | a group request creates one command per online member whose INSERT succeeded, offers each to its own device's client once, leaves SENT exactly those with a nil send and PENDING the others, touches nothing else, and answers with their numbers |
| CommandSends.NilSendsAreRecorded | internal/handler/command_handler.go:108-119 | a dispatch's outcome is nil exactly if the log's device had a client and the offer recorded there is not a refusal |
| CommandHandlers.CommandHandler.DispatchEach | internal/handler/command_handler.go:106-119 | every log is offered once in order, exactly those whose own offer was not refused are marked, sent is their number |
| CommandHandlers.DispatchedRows | internal/handler/command_handler.go:108-119 | a dispatch leaves marked logs SENT and every other row as it was |
| DeviceTable.DeviceRepo.SetOnline | internal/repository/device_repo.go:120-125 | sets presence and last_seen of that device |
| DeviceTable.DeviceRepo.UpdateDeviceInfo | internal/repository/device_repo.go:128-134 | sets the info columns and last_seen, not presence |
| DeviceTable.DeviceRepo.MarkOfflineInactive | internal/repository/device_repo.go:165-174 | takes offline exactly the online rows not seen since the cutoff or never, and counts them |
| DeviceTable.DeviceRepo.GetByGroupID | internal/repository/device_repo.go:61-81 | each member of the group exactly once, by ascending name, with its presence |
| DeviceTable.WritesByColumn | internal/repository/device_repo.go:120-134 | presence writes leave the info columns, info writes leave presence, and both leave name, group and other rows alone |
| DeviceTable.SweepByColumn | internal/repository/device_repo.go:165-174 | a device stays online exactly if it was and has been seen since the cutoff; nothing else changes |
| DeviceTable.TableMoves | internal/repository/device_repo.go:165-174 | a sweep works with the clock reading taken before; devices are added offline and removed alone |
| Locks.ProgramsAreDisciplined | internal/websocket/hub.go:39-221 | no path of hub calls takes the mutex while holding it or inside a close-once, and each ends holding nothing |
| Locks.NeverDeadlocks | internal/websocket/hub.go:39-221 | whatever goroutines execute and however they are scheduled, while one is unfinished some goroutine can step |
| Locks.LocksNeverNest | internal/websocket/client.go:68-73 | in every run lock and close-once acquisitions never nest wrongly and a writer excludes everyone |
| Locks.StepShrinks | internal/websocket/hub.go:39-221 | every enabled step leaves less to do, so no schedule of enabled steps is endless |
| Locks.EveryoneCanFinish | internal/websocket/hub.go:39-221 | from every state of every run all goroutines can finish |
| Keepalive.KeepaliveBound | internal/websocket/client.go:82-87 | answering each ping within a delay keeps the read deadline from expiring in all runs if and only if the delay is at most pongWait - pingPeriod |
| Keepalive.LatePongExpires | internal/websocket/client.go:13-16 | beyond that bound a timely run exists in which the deadline passes |
| Keepalive.SilenceExpires | internal/websocket/client.go:82-87 | a device that goes silent is given up exactly pongWait after its last pong, or after the start |
| StatusMerge.StatusRepo.Upsert | internal/repository/status_repo.go:20-47 | merges into the device's row or inserts it; errs and changes nothing for an unknown device |
| StatusMerge.MergeFieldwise | internal/repository/status_repo.go:27-40 | each of the fourteen columns is merged with itself |
| StatusMerge.FieldsHoldLastReport | internal/repository/status_repo.go:20-47 | after any heartbeats each field holds the last value reported for it |
| StatusMerge.KnownStaysKnown | internal/repository/status_repo.go:26-41 | a known field never becomes unknown; other devices' rows never move |
| StatusMerge.UpdatedAtIsLatest | internal/repository/status_repo.go:20-47 | a row carries the time of its device's latest heartbeat; an unknown device gets no row |
| StatusMerge.MergeIsAssociative | internal/repository/status_repo.go:27-40 | merging is associative |
| StatusMerge.MergeIdentities | internal/repository/status_repo.go:27-40 | merging is idempotent and the empty report is its identity |
| StatusMerge.PremergedRunUpsertsTheSame | cmd/server/main.go:200-220 | merging a run of heartbeats first equals upserting them one by one |
| Accounts.InsertAllOutcome | internal/repository/device_repo.go:190-197 | the inserts go through if and only if nothing repeats or is there already and the device exists or the list is empty |
| Accounts.RowPerAccount | migrations/00010_create_device_accounts.sql:3-11 | without repetition there is one row per listed account |
| Accounts.AccountTable.UpsertDeviceAccounts | internal/repository/device_repo.go:177-200 | commits exactly on a valid list, then the accounts are the list; otherwise nothing changes; other devices' accounts never change |
| Base64.GroupsRoundTrip | internal/service/screenshot_service.go:32-40 | decoding what was encoded, padded or not, gives the bytes back |
| Base64.DecodersAgree | internal/service/screenshot_service.go:33-36 | where both decoders succeed they agree |
| Base64.AlphabetIsExact | internal/service/screenshot_service.go:33-36 | a character stands for a value exactly if it is that value's character |
| Base64.UnpaddedDecodes | internal/service/screenshot_service.go:33-36 | unpadded, exactly the texts over the alphabet without a lone last character decode |
| Base64.PaddedDecodes | internal/service/screenshot_service.go:32-33 | padded, exactly the texts of whole groups over the alphabet, the last with at most two padding characters, decode |
| Base64.StripsExactlyNewlines | internal/service/screenshot_service.go:32-36 | carriage returns and newlines are skipped, every other character counts |
| Screenshots.ImageDecodes | internal/service/screenshot_service.go:26-40 | exactly which texts can be saved |
| Screenshots.PrefixIsStripped | internal/service/screenshot_service.go:27-30 | stripping removes the prefix and never data |
| Screenshots.ScreenshotRoundTrip | internal/service/screenshot_service.go:26-40 | any bytes, padded or not, wrapped or not, prefixed or not, decode to themselves |
| Screenshots.UnpaddedFrameDecodes | cmd/server/main.go:325-330 | the mirror decoder reads an unpadded frame if and only if its length is a multiple of three |
| Screenshots.ScreenshotService.SaveScreenshot | internal/service/screenshot_service.go:26-51 | succeeds exactly when the text decodes and the write succeeds, and then the device's file holds the bytes |

## Left out

- HTTP routing, authentication, tokens, configuration, logging and response shapes: no property of the modelled state depends on them.
- JSON envelopes and payload parsing: messages are abstract values, and malformed ones change nothing, as in the code.
- Device handlers, dashboard handlers and read pumps as methods: their loops make sense only interleaved, so they are program counters of the step machine instead.
- Hub.StartPingLoop as a method: in the step machine its pings are ordinary look-ups and sends, in the lock model it is a path.
- Touch and WebRTC relays, APK and group administration, account and command history queries: forwarding or plain reads.
- Reuse of pooled connection objects by the WebSocket library, and concurrent writers on one dashboard connection: the library is not part of this model.
- What a failed file write leaves of the device's own screenshot file: unspecified in the model.
- Accounts.AccountTable.UpsertDeviceAccounts: the generated ids and timestamps of account rows are not modelled, nor
  are overlapping transactions of one device, whose outcome depends on the database's locking.
- Fairness between goroutines waiting for the mutex: the model lets any enabled goroutine go next, which includes what Go's RWMutex does.
