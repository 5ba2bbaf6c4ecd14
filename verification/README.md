# Verified model of the CRM modem manager

CRM keeps a cellular modem running for many clients. It is a set of threads and processes
that talk through small queues and sockets; what is hard about it is in its protocols and
state machines. This project models them in Dafny and proves what they promise over every
input, every run and every interleaving.

`dafny verify dfyconfig.toml` checks the whole project.

## How the model is organised

| files | part of the system |
|---|---|
| `Fsm.dfy`, `Common.dfy` | the table-driven engine; outcomes, shared arithmetic |
| `Cla.dfy`, `ClaBook.dfy`, `ClaInvariant.dfy`, `ClaRuns.dfy` | client abstraction: specification, counters, invariant, runs |
| `ClaOutcomes.dfy`, `ClaTurns.dfy` | what each event, message, turn and time-out makes of it |
| `ClaRequests.dfy`, `ClaOrigins.dfy` | which request it sends, and from where |
| `ClaDelivery.dfy`, `DeliveryScripts.dfy` | what each client is told, and a run that passes one over |
| `ClaLimits.dfy`, `ClaStuck.dfy`, `ClaScripts.dfy` | where it stops, when it waits for nobody, and runs from its start that do |
| `ClaFrame.dfy`, `ClaHolds.dfy` | what a step leaves alone in the slot of a client, and whose hold a time-out can end |
| `ClaClients.dfy`, `ClaMachine.dfy` | client abstraction as objects: the client array and the context, updated in place |
| `Control.dfy`, `ControlFrame.dfy`, `ControlMachine.dfy` | control: specification, what its operations leave alone, the object |
| `ControlOutcomes.dfy`, `ControlOrders.dfy`, `ControlDuty.dfy` | what each event makes of control, what it orders HAL and the services to do, and what it owes client abstraction |
| `System.dfy`, `SystemResults.dfy`, `SystemRequests.dfy`, `SystemScripts.dfy` | client abstraction and control joined by their queues, the results on their way back, the requests on their way there, and runs that meet what the theorems except |
| `Watchdog.dfy`, `WatchdogRuns.dfy` | the watchdog thread and its exchange with control |
| `Hal.dfy`, `HalRuns.dfy`, `HalReports.dfy`, `HalControl.dfy` | the Sofia HAL alone, what it reports, and with control |
| `ObjectRuns.dfy` | the objects of client abstraction, control and HAL driven from their start |
| `Wire.dfy`, `WireProofs.dfy`, `WireRequests.dfy`, `WireBuffer.dfy` | the client protocol: format, round trips, each request, buffers |
| `Session.dfy`, `SessionServer.dfy`, `ClaSessions.dfy`, `SessionScripts.dfy` | the reconnecting client library, a session's messages in client abstraction, both together, and runs that leave their flags apart |
| `BridgeInput.dfy`, `BridgeCommands.dfy`, `BridgeOutput.dfy`, `Intent.dfy`, `JavaReader.dfy`, `JavaLoop.dfy` | the Java bridge: framing, commands, delivery, intents, the Java reader and its loop |
| `Escalation.dfy`, `Ipc.dfy`, `Time.dfy`, `Tlv.dfy` | recovery steps, message ring, deadlines, customization files |

Code that works by updating a context is modelled twice: as a class whose methods change their
fields, arrays and loops the way the source does, and as a function of the context's value that
each method is proved equal to. The invariants over runs are proved about the functions; the
methods of `ObjectRuns.dfy` drive the objects through any inputs and state them of their fields.

An assertion of the source is an explicit `Abort` outcome. It is then proved unreachable, or
shown reachable with the exact condition, or left to the environment. A run is a sequence of
steps that do not abort; the theorems say of every reachable state what holds in it and which
assertions its next step can meet.

Decisions taken once for the whole model:

- Clock readings, poll results, socket failures, file writes and the answers of other plugins
  are inputs of the step that uses them; time-outs can happen whenever their timer is armed.
- A send on an inter-thread queue is never refused, as several callers ignore the result.
- The descriptors that poll reports ready are handled in any order and number, which includes
  the order of the source.
- `int` counters are unbounded; widths that matter (identifiers, packed scalars, sizes, clock
  values) are written out, and division truncates where operands can be negative.
- The limits of the public client header (number of events, name length, debug strings) and the
  numbers it gives to events and causes are parameters.
- A C string is its content up to the terminator; where a buffer can hold a NUL, the cut is
  modelled.
- The source says in a comment that failsafe in control must be reviewed; the model follows the
  code. Failsafe is a move like any other between HAL and control, where the theorem says exactly
  which ones do harm; it is excluded between client abstraction and control, where a lemma says
  that every one breaks the count, and a run reaches it.
- Logs that the source does not keep stand for what leaves a component: the broadcasts and requests
  of client abstraction and what each client was told, the messages of control and its orders to
  HAL and the services, the events of HAL.
- A HAL event is stray if it says that a modem runs or dumps in DOWN, runs in WAITING though nothing
  or a stop is asked, or if the reset timer elapses with no reset held. Only
  SystemRequests.RequestsExpected excludes them, and SystemScripts.StrayStart shows why.
- The thread of HAL makes its two sends one after the other; anything can be posted between them.
- The messages that one event of control sends to client abstraction join its queue together, where
  a relayed event could come between two of them; nothing proved depends on that.

## Model

| member | source | states |
|---|---|---|
| `ClaRuns.AckBookkeeping` | plugins/client_abstraction/src/client_abstraction.c:233-300 | In every run both waiting counters equal the number of clients with the matching flag, each kind of acknowledgement is awaited only in its own state, EV_CLI_ACKED is synthesised only in a waiting state, and no step can stop at a mutual-exclusion assertion, a negative acknowledgement counter, a client cleaned twice or an unexpected EV_CLI_ACKED |
| `ClaRuns.HoldersAndTimers` | plugins/client_abstraction/src/client_abstraction.c:990-1105 | In every run ST_UP between two turns means that somebody holds the modem, so EV_CLI_ACQUIRE never meets ST_UP; the acquisition counter is exact (up to the initial 1 without FMMO) until a SHUTDOWN request; the wakelock is taken at most once and held whenever a timer runs, so the time-out assertions cannot fire; no second request to control |
| `ClaRuns.CoherentBroadcasts` | plugins/client_abstraction/src/client_abstraction.c:364-423 | In every run the last of UP, DOWN and OOS broadcast is UP for a modem shown ready, OOS for an unresponsive one and DOWN for any other known one, a platform reboot excepted, and two UP broadcasts have a DOWN between them |
| `ClaRuns.UnresponsiveIsTerminal` | plugins/client_abstraction/src/client_abstraction.c:695-763 | Once the modem state is UNRESP, the rest of any run keeps it, sends no start, stop or restart, and broadcasts nothing but pass-through events |
| `ClaRuns.NoForbiddenStop` | plugins/client_abstraction/src/client_abstraction.c:579-591 | From any reachable state the only assertions a step can meet are the nine kinds listed by MayStop, a negative acquisition counter only after a SHUTDOWN request |
| `ClaRuns.StepKeeps` | plugins/client_abstraction/src/client_abstraction.c:970-1110 | Every step of the main loop (poll, time-out, control message, client message, connection, loss, end of turn, end of scan) keeps the loop invariant |
| `ClaRuns.ModemStateKeeps` | plugins/client_abstraction/src/client_abstraction.c:695-763 | A modem state from control, shown or kept from the clients, keeps counters, broadcast log and state correspondence |
| `ClaRuns.ControlMsgKeeps` | plugins/client_abstraction/src/client_abstraction.c:672-766 | Every message of control keeps the invariant; a waiting state is only left through acknowledgements |
| `ClaRuns.ClientMsgKeeps` | plugins/client_abstraction/src/client_abstraction.c:768-944 | Every client message keeps the invariant; only an acquisition raises the counter, and it moves nothing else |
| `ClaRuns.EndTurnStep` | plugins/client_abstraction/src/client_abstraction.c:1079-1103 | The event synthesised at the end of a turn is one the machine expects in its state |
| `ClaRuns.TimeoutStep` | plugins/client_abstraction/src/client_abstraction.c:1006-1031 | A poll time-out always belongs to a timer and always finds the wakelock held |
| `ClaRuns.FrozenStep` | plugins/client_abstraction/src/client_abstraction.c:499-508 | With an unresponsive modem no single step leaves that state, broadcasts a state or asks control for anything |
| `ClaDelivery.ClientsInformed` | plugins/client_abstraction/src/client_abstraction.c:260-300 | In every run, a registered client that is not being removed was last told the state that the modem is shown in (UP, DOWN or OOS), if it listens to it, a platform reboot excepted, which is not told |
| `ClaDelivery.StepTells` | plugins/client_abstraction/src/client_abstraction.c:1011-1033 | In any step, a client that the step does not give up is told every broadcast it listens to, in order and nothing else, if and only if it is not marked or there is none |
| `DeliveryScripts.LiveClientSkipped` | plugins/client_abstraction/src/client_abstraction.c:946-967 | A run from the start of the loop, every send of which succeeds, in which a registered client that listens to SHUTDOWN is not told of one and the modem is stopped without its acknowledgement: the mark of a client that left outlives the compaction, names its neighbour, and the time-out passes it over |
| `ClaDelivery.RegisterTells` | plugins/client_abstraction/src/client_abstraction.c:803-825 | A client that registers is told the state the modem is shown in, unless none is known yet or it does not listen to it; it is removed if that send fails or if it was registered already; nobody else is told anything |
| `ClaDelivery.TimeoutInformed` | plugins/client_abstraction/src/client_abstraction.c:1006-1031 | The broadcasts of a time-out never change the state shown, so whoever they pass over stays up to date |
| `ClaFrame.AllHeard` | plugins/client_abstraction/src/client_abstraction.c:292-300 | A broadcast adds to the log of a client exactly the event, if it is not marked, listens to it and the send succeeds |
| `ClaRequests.RequestsRight` | plugins/client_abstraction/src/client_abstraction.c:316-558 | In every run the request in flight is a stop while the machine stops, a start or a restart while it starts; and every step sends at most one request, with its reason: a start for a holder and a modem that is not gone, a stop for a modem nobody holds or one that is ready behind a shutdown, a restart of the pending kind, or of the modem's own for one that is busy |
| `ClaRequests.StepWell` | plugins/client_abstraction/src/client_abstraction.c:364-558 | The same for each step of the loop |
| `ClaRequests.StartsWhenOff` | plugins/client_abstraction/src/client_abstraction.c:316-328 | In every run in which no stop fails while the modem is shown neither off nor unresponsive, a start is sent only for a modem shown off that somebody holds |
| `ClaScripts.StartsWhileBusy` | plugins/client_abstraction/src/client_abstraction.c:579-591 | A run of client abstraction alone in which one does, after which a start is sent for a modem shown busy: control never sends it, see SystemRequests.StartsWhenOff |
| `ClaOrigins.StepFrom` | plugins/client_abstraction/src/client_abstraction.c:364-558 | A start leaves only a machine that is off, or on OFF from control, or on the success of a stop; the machine gets off only on OFF or on the result of a stop, unless the modem is gone; and it leaves INITIAL on OFF or READY, for good |
| `ClaOutcomes.Released` | plugins/client_abstraction/src/client_abstraction.c:364-391 | The last holder has gone from a modem that is up: the clients are told SHUTDOWN and, unless they see it already, DOWN; a stop is sent if nobody has to acknowledge |
| `ClaOutcomes.RestartAsked` | plugins/client_abstraction/src/client_abstraction.c:393-423 | A restart of a modem that is up: DOWN and COLD_RESET are told, and the restart of the pending kind is sent if nobody has to acknowledge |
| `ClaOutcomes.Acquired` | plugins/client_abstraction/src/client_abstraction.c:316-328 | The first holder of a modem that is off makes a start leave, and nothing else |
| `ClaOutcomes.CameUp` | plugins/client_abstraction/src/client_abstraction.c:436-457 | A modem that came up is stopped if nobody holds it, restarted if that is pending, else up |
| `ClaOutcomes.WentOff` | plugins/client_abstraction/src/client_abstraction.c:459-477 | A modem that went off is started if somebody holds it, else off |
| `ClaOutcomes.ColdResetAcked` | plugins/client_abstraction/src/client_abstraction.c:499-523 | After the last cold-reset acknowledgement: nothing for an unresponsive modem, a shutdown if nobody holds it, else the pending restart |
| `ClaOutcomes.ShutdownAcked` | plugins/client_abstraction/src/client_abstraction.c:526-558 | After the last shutdown acknowledgement: a stop if nobody holds the modem or it is still ready with nothing pending, the pending restart, or the restart of a modem that turned busy |
| `ClaOutcomes.BecameBusy` | plugins/client_abstraction/src/client_abstraction.c:425-434 | A modem that turns busy while it is up is restarted |
| `ClaOutcomes.BecameUnresponsive` | plugins/client_abstraction/src/client_abstraction.c:579-591 | An unresponsive modem is off, but acknowledgements and a stop under way are waited for |
| `ClaOutcomes.Failed` | plugins/client_abstraction/src/client_abstraction.c:560-577 | A failure is accepted by a stop, and else only with an unresponsive modem |
| `ClaOutcomes.Ignored` | plugins/client_abstraction/src/client_abstraction.c:579-591 | The events that change nothing, state by state |
| `ClaOutcomes.Unexpected` | plugins/client_abstraction/src/client_abstraction.c:579-591 | An event stops the process at its cell if and only if its state does not expect it |
| `ClaTurns.AckCounts` | plugins/client_abstraction/src/client_abstraction.c:907-925 | An acknowledgement lowers the counter of its own kind, by one, if it is awaited from that client, and clears that flag alone |
| `ClaTurns.HoldCounts` | plugins/client_abstraction/src/client_abstraction.c:827-848 | An acquisition or a release changes the hold of its client and the counter by one, unless rejected or without effect |
| `ClaTurns.TurnSummed` | plugins/client_abstraction/src/client_abstraction.c:1079-1103 | What a turn leads to: the machine leaves a waiting state once the last awaited client is done with, hears of the first holder and of the last one gone, and is not moved otherwise |
| `ClaTurns.LastAckMoves` | plugins/client_abstraction/src/client_abstraction.c:1079-1103 | The acknowledgement of the only client awaited takes the machine out of its waiting state |
| `ClaTurns.RestartTaken` | plugins/client_abstraction/src/client_abstraction.c:850-895 | The restart of a client is pending with the kind of its cause and starts at once if the modem is up; it is ignored while another is pending, while the modem is not ready and once requests are rejected |
| `ClaTurns.BackupTaken` | plugins/client_abstraction/src/client_abstraction.c:902-905 | The same for a backup |
| `ClaTurns.StateRecorded` | plugins/client_abstraction/src/client_abstraction.c:695-763 | A modem state is recorded whatever is shown: READY and OFF end a pending restart, an unresponsive modem ends requests for good, and one that turns busy while it is up starts a restart |
| `ClaTurns.TimeoutServed` | plugins/client_abstraction/src/client_abstraction.c:1006-1031 | After a time-out the boot timer is armed exactly if time is left, the round of acknowledgements is over, and the wakelock is held exactly if a timer still runs |
| `ClaTurns.WakelockExact` | plugins/client_abstraction/src/client_abstraction.c:996-1004 | In every run, once poll is entered the wakelock is held exactly if a timer runs |
| `ClaInvariant.ShutdownKeeps` | plugins/client_abstraction/src/client_abstraction.c:364-391 | The shutdown procedure, from any calm state, ends stopping or waiting for acknowledgements with counters, timer, wakelock and log in agreement |
| `ClaInvariant.RestartKeeps` | plugins/client_abstraction/src/client_abstraction.c:393-423 | The same for the restart procedure, ending starting or waiting |
| `ClaInvariant.ShutAckedKeeps` | plugins/client_abstraction/src/client_abstraction.c:526-558 | The operation on the last shutdown acknowledgement keeps the invariant and never leads to UP |
| `ClaInvariant.ColdAckedKeeps` | plugins/client_abstraction/src/client_abstraction.c:499-523 | The operation on the last cold-reset acknowledgement keeps the invariant and never leads to UP |
| `ClaInvariant.UpsSeparated` | plugins/client_abstraction/src/client_abstraction.c:695-763 | A broadcast log in which UP only follows DOWN has a DOWN between any two UP |
| `ClaBook.UnregisterKeeps` | plugins/client_abstraction/src/client_abstraction.c:233-258 | Giving a client up keeps all counter/flag agreements; only a counter below the number of holders can stop it |
| `ClaBook.BroadcastKeeps` | plugins/client_abstraction/src/client_abstraction.c:292-300 | A broadcast keeps all counter/flag agreements; only COLD_RESET and SHUTDOWN raise a waiting counter, each its own |
| `ClaBook.SlotMsgKeeps` | plugins/client_abstraction/src/client_abstraction.c:827-925 | Acquire, release and both acknowledgements keep all counter/flag agreements |
| `ClaBook.ClearKeeps` | plugins/client_abstraction/src/client_abstraction.c:1013-1025 | Giving the acknowledgements up clears every flag and both counters and leaves the holders alone |
| `ClaBook.CompactKeeps` | plugins/client_abstraction/src/client_abstraction.c:946-967 | Removing the marked clients preserves the three counter/flag agreements |
| `ClaLimits.LossAfterShutdown` | plugins/client_abstraction/src/client_abstraction.c:897-900 | From a SHUTDOWN request on, in every later state of every run, requests are rejected and the acquisition counter is 0, and the removal of an unmarked client stops the process if and only if its flag says that it holds the modem |
| `ClaLimits.SocketLostAfterShutdown` | plugins/client_abstraction/src/client_abstraction.c:1042-1044 | So the loss of its socket stops the process if and only if the client held the modem |
| `ClaScripts.HolderLostAfterShutdown` | plugins/client_abstraction/src/client_abstraction.c:233-258 | A run from the start of the loop that meets it: a client acquires, asks for a shutdown and leaves |
| `ClaLimits.BackupMeetsAssertion` | plugins/client_abstraction/src/client_abstraction.c:902-905 | A NVM_BACKUP request meets an asserting cell if and only if the state is OFF, WAITING_COLD or STOPPING |
| `ClaScripts.BackupWhileOff` | plugins/client_abstraction/src/client_abstraction.c:579-591 | A run from the start of the loop that meets it in OFF |
| `ClaLimits.RestartDuringShutdown` | plugins/client_abstraction/src/client_abstraction.c:526-558 | In WAITING_SHUTDOWN, EV_CLI_ACKED meets the fake-state assertion if and only if somebody holds the modem, a restart is pending, the state shown is faked and not BUSY, and the DOWN broadcast goes through |
| `ClaLimits.AckMeetsFake` | plugins/client_abstraction/src/client_abstraction.c:393-406 | In every run without a SHUTDOWN request the broadcast goes through: the assertion is met if and only if somebody holds the modem, a restart is pending and the state shown is a faked OFF |
| `ClaScripts.RestartMeetsShutdown` | plugins/client_abstraction/src/client_abstraction.c:397-406 | A run from the start of the loop that meets it: release, acquire again, ask for a restart, acknowledge the shutdown |
| `ClaStuck.AwaitedExact` | plugins/client_abstraction/src/client_abstraction.c:1034-1103 | Between two turns of any run, a waiting state has a positive waiting counter if and only if no message of control, handled in a turn that began with nobody awaited, could be sent to none of the clients awaited since |
| `ClaStuck.StepAwake` | plugins/client_abstraction/src/client_abstraction.c:260-300 | One step leaves a waiting state with nobody awaited and no turn to notice it exactly if it is such a message: every awaited client is unmarked, listens to the event sent, and its send fails |
| `ClaStuck.StuckForever` | plugins/client_abstraction/src/client_abstraction.c:499-558 | From then on, whatever happens, the machine stays in its waiting state and asks control for nothing |
| `ClaStuck.MissedAck` | plugins/client_abstraction/src/client_abstraction.c:1046-1051 | A run from the start of the loop that gets there: BUSY, then debug information that the only awaited client does not get, read in one turn |
| `ClaLimits.RestartMeetsFake` | plugins/client_abstraction/src/client_abstraction.c:397-406 | The restart procedure meets its assertion if and only if it starts from a faked state other than BUSY |
| `ClaClients.CompactionPartitions` | plugins/client_abstraction/src/client_abstraction.c:946-967 | Every client is kept or has its descriptor closed, according to its mark, and the two counts add up |
| `ClaClients.ClientList.UpdateClientList` | plugins/client_abstraction/src/client_abstraction.c:946-967 | The in-place memmove loop leaves exactly the unmarked clients in order and closes exactly the marked descriptors, in order |
| `ClaClients.ClientList.ShiftDown` | plugins/client_abstraction/src/client_abstraction.c:954-959 | memmove of the tail of the array onto the freed slot |
| `ClaClients.ClientList.HandleUnregister` | plugins/client_abstraction/src/client_abstraction.c:233-258 | In place: flags cleared, counters lowered, client marked, or the assertion met |
| `ClaClients.ClientList.SendEvent` | plugins/client_abstraction/src/client_abstraction.c:260-290 | In place: the acknowledgement an event asks for, and the removal of a client whose socket fails |
| `ClaClients.ClientList.SendEventToAll` | plugins/client_abstraction/src/client_abstraction.c:292-300 | The loop over the clients equals the recursive broadcast that the invariants are about |
| `ClaClients.ClientList.SlotMessage` | plugins/client_abstraction/src/client_abstraction.c:827-925 | In place: acquire, release and acknowledgements of one client |
| `ClaClients.ClientList.Register` | plugins/client_abstraction/src/client_abstraction.c:803-825 | In place: registration, or the removal of a client that registers twice |
| `ClaClients.ClientList.GiveUpAcks` | plugins/client_abstraction/src/client_abstraction.c:1013-1025 | The loop that clears the waiting flags of every client |
| `ClaClients.ClientList.Accept` | plugins/client_abstraction/src/client_abstraction.c:1053-1066 | A new client takes the slot after the last one; a seventeenth meets the assertion |
| `ClaMachine.Machine.ShutdownProcedure` | plugins/client_abstraction/src/client_abstraction.c:364-391 | The object's procedure does what the specification function says, abort included |
| `ClaMachine.Machine.RestartProcedure` | plugins/client_abstraction/src/client_abstraction.c:393-423 | The same for the restart procedure |
| `ClaMachine.Machine.PendingUp` | plugins/client_abstraction/src/client_abstraction.c:436-457 | The same for check_pending_up |
| `ClaMachine.Machine.PendingDown` | plugins/client_abstraction/src/client_abstraction.c:459-477 | The same for check_pending_down |
| `ClaMachine.Machine.OnColdAcked` | plugins/client_abstraction/src/client_abstraction.c:499-523 | The same for client_acked_cold |
| `ClaMachine.Machine.OnShutdownAcked` | plugins/client_abstraction/src/client_abstraction.c:526-558 | The same for client_acked_shtdwn |
| `ClaMachine.Machine.NotifyEvent` | libs/utils/src/fsm.c:71-118 | The engine run on the table of client abstraction |
| `ClaMachine.Machine.OnModemState` | plugins/client_abstraction/src/client_abstraction.c:695-763 | The object's handling of a modem state |
| `ClaMachine.Machine.OnControlMsg` | plugins/client_abstraction/src/client_abstraction.c:672-766 | The object's handle_control_msg |
| `ClaMachine.Machine.OnClientMsg` | plugins/client_abstraction/src/client_abstraction.c:768-944 | The object's handle_client_msg |
| `ClaMachine.Machine.GetTimeout` | plugins/client_abstraction/src/client_abstraction.c:339-362 | The delay is the least time left of the running timers, -1 without one, and the flags name exactly the timers it belongs to |
| `ClaMachine.Machine.OnTimeout` | plugins/client_abstraction/src/client_abstraction.c:1006-1031 | The time-out branch of the loop |
| `ClaMachine.Machine.EndOfTurn` | plugins/client_abstraction/src/client_abstraction.c:1079-1103 | The synthesised event of a turn |
| `ClaMachine.Machine.EndOfScan` | plugins/client_abstraction/src/client_abstraction.c:1105 | The scan ends with the compaction; the descriptors of the marked clients are closed |
| `ClaMachine.Machine.Serve` | plugins/client_abstraction/src/client_abstraction.c:1046-1075 | What a turn of the descriptor loop is about: control's messages, a connection, a client's message or its loss |
| `ClaMachine.Machine.TakeStep` | plugins/client_abstraction/src/client_abstraction.c:996-1110 | One step of the thread on the object, whatever its point of the loop, is the step that the run theorems are about |
| `ObjectRuns.ClientAbstraction` | plugins/client_abstraction/src/client_abstraction.c:970-1110 | The object driven from its start through any inputs: counters equal the flags of the array, each waiting counter is positive only in its own state, UP between two turns has a holder, the wakelock is held once and whenever a timer runs, the last state broadcast is the one shown, the request in flight is a stop exactly while the machine stops, and none of the excluded assertions is met |
| `ClaMachine.TableRows` | plugins/client_abstraction/src/client_abstraction.c:579-591 | The table written row by row, as the engine indexes it, is the one the invariants are proved about |
| `Fsm.NextState` | libs/utils/src/fsm.c:86-104 | A failed operation is replaced by the failsafe one, which a forced state does not override and which alone can leave no valid state |
| `System.RequestConservation` | plugins/control/src/fsm_ctrl.c:143-149 | In every interleaving with no EV_FAILURE outside DUMPING and no backup request in DUMPING, and with events for the clients posted by other threads, requests in flight + the request control holds + results in flight equal request_in_progress, and no move can stop at a second request on either side |
| `SystemResults.ResultsExpected` | plugins/client_abstraction/src/client_abstraction.c:579-591 | In every such interleaving a result finds client abstraction starting, stopping, or off with an unresponsive modem, so the assertions on results of INITIAL, UP and both waiting states cannot fire; a failure always finds the modem unresponsive and is accepted |
| `SystemResults.EventHonest` | plugins/control/src/fsm_ctrl.c:342-388 | One regular event of control answers a failure only out of service, and goes out of service only behind the message that says so |
| `SystemResults.MoveOrdered` | plugins/control/src/fsm_ctrl.c:143-149 | Each move keeps every failure on its way behind UNRESP or PLATFORM_REBOOT, in the queue or already shown |
| `SystemRequests.StartsWhenOff` | plugins/client_abstraction/src/client_abstraction.c:316-328 | In every interleaving with control (regular as above), a start is sent only for a modem shown off that somebody holds |
| `SystemRequests.RequestsExpected` | plugins/control/src/fsm_ctrl.c:807-830 | In every such interleaving without stray HAL events, control expects every start, reset and update at the moment it reads it; it stops at a stop if and only if the modem went down meanwhile, and at a backup if and only if it went down or waits |
| `SystemRequests.MoveJoint` | plugins/control/src/fsm_ctrl.c:440-561 | Each move keeps what makes that true: which request is on its way or held, where control is with it, and what client abstraction was told |
| `SystemRequests.RestartSent` | plugins/client_abstraction/src/client_abstraction.c:850-905 | A client's restart of a modem that is up queues to control the event of its cause, or is kept with its kind while the clients acknowledge |
| `SystemScripts.StopRefused` | plugins/control/src/fsm_ctrl.c:807-830 | A run without stray events that meets a stop in DOWN: the modem is found up, turns busy and off while client abstraction, with no holder, sends the stop |
| `SystemScripts.BackupRefused` | plugins/control/src/fsm_ctrl.c:807-830 | Runs without stray events that meet a backup in WAITING and in DOWN |
| `SystemScripts.StrayStart` | plugins/control/src/fsm_ctrl.c:807-830 | Stray events are a real exception: a modem that runs while it is down makes the start that follows stop control |
| `ControlDuty.EventLawful` | plugins/control/src/fsm_ctrl.c:342-561 | One regular event of control that is not stray: what it tells client abstraction agrees with the state it leads to, and with the request it holds |
| `ControlDuty.EventTimed` | plugins/control/src/fsm_ctrl.c:503-518 | The reset timer runs only in UP and with a reset held |
| `System.MoveKeeps` | plugins/control/src/fsm_ctrl.c:440-561 | Each move of either machine keeps the count of tokens |
| `System.NotifyBalance` | plugins/control/src/fsm_ctrl.c:807-830 | One regular event of control takes or answers a request, any other event at most answers; ClientRequest is only met by a second request |
| `System.IrregularBreaks` | plugins/control/src/fsm_ctrl.c:741-754 | The two excluded cases are exact: any such event that control survives unbalances the exchange |
| `System.IrregularMove` | plugins/control/src/fsm_ctrl.c:741-754 | In the joined system such an event adds a token that no client asked for (EV_FAILURE) or loses one (backup), wherever the exchange stands |
| `SystemScripts.FailureUnbalances` | plugins/control/src/fsm_ctrl.c:807-830 | A run from the start of both machines that reaches one: OFF, then EV_FAILURE in DOWN, after which control holds a request and none is in progress |
| `SystemScripts.BackupUnbalances` | plugins/control/src/fsm_ctrl.c:807-830 | A run that reaches the other: a backup asked while BUSY and DUMP are queued meets DUMPING and is dropped, and client abstraction waits for a result that nobody owes |
| `System.StepTokens` | plugins/client_abstraction/src/client_abstraction.c:316-558 | Each step of client abstraction raises request_in_progress by the requests it sends, and only a result clears it |
| `ControlFrame.QuietOps` | plugins/control/src/fsm_ctrl.c:143-725 | No operation of control but failsafe forgets a busy event, and none talks to the watchdog or changes the state itself |
| `ControlFrame.BusyRemembered` | plugins/control/src/fsm_ctrl.c:778-798 | After any event, a reason is awaited exactly if the event is a busy one, or one was awaited and this is no reason, and failsafe did not run |
| `ControlFrame.PreOpExact` | plugins/control/src/fsm_ctrl.c:778-798 | The assertion of pre_op fires if and only if a reason comes that no busy event announced |
| `ControlOrders.OrdersGiven` | plugins/control/src/fsm_ctrl.c:143-725 | What one event makes control order HAL and the services to do follows from the states it leaves and enters: package and power on, or package and reset, on the way to PACKAGING, upload on the way to FLASHING, boot once the upload is done before the modem runs, customize, read or stop a dump, and shut down exactly for a stop that is due |
| `ControlOrders.EventFits` | plugins/control/src/fsm_ctrl.c:151-257 | Every event keeps the orders in order: no upload without a packaging since the last one, power on and reset right behind a packaging, boot behind an upload, a dump stopped only while it is read; a modem that is up or on its way was not shut down since, and a stop held with no reason awaited was passed on |
| `ControlOrders.StopHeld` | plugins/control/src/fsm_ctrl.c:421-438 | A stop that control holds in WAITING with no reason awaited was passed on to HAL when it got there |
| `ControlOutcomes.Resumed` | plugins/control/src/fsm_ctrl.c:421-438 | In WAITING (NEED_RESET, FLASH) and DUMPING (dump ended, failed or cut short): with no request or a stop the next state is WAITING and the request is kept; with a start or a reset a recovery step follows, PACKAGING or DOWN |
| `ControlOutcomes.RecoveryStarted` | plugins/control/src/fsm_ctrl.c:390-419 | The events that start a recovery whatever is asked: a cold reset reports the debug data and leads to PACKAGING with the request kept, a platform reboot or the end of service is told, fails the request and leads to DOWN, out of service |
| `ControlOutcomes.GivenUp` | plugins/control/src/fsm_ctrl.c:641-658 | An unresponsive modem is given up as the last step of escalation says; while it is flashed it goes out of service |
| `ControlOutcomes.Packaged` | plugins/control/src/fsm_ctrl.c:151-192 | The modem is flashed once HAL is ready for it and the firmware is packaged, whichever comes last, and both are then forgotten |
| `ControlOutcomes.Flashed` | plugins/control/src/fsm_ctrl.c:194-257 | The modem is configured once it runs and is flashed, whichever comes last: CUSTOMIZING if there is something to apply, else the request succeeds, READY is told and the state is UP |
| `ControlOutcomes.FoundRunning` | plugins/control/src/fsm_ctrl.c:220-231 | A modem found running at the start is configured at once |
| `ControlOutcomes.Customized` | plugins/control/src/fsm_ctrl.c:563-580 | Once customized the modem restarts, with the request kept and the end of the operation told |
| `ControlOutcomes.TurnedOff` | plugins/control/src/fsm_ctrl.c:628-639 | OFF, at the start or while waiting: the request succeeds, then OFF is told, and the state is DOWN |
| `ControlOutcomes.TurnedBusy` | plugins/control/src/fsm_ctrl.c:660-670 | BUSY is told to the clients of a modem that is up or being packaged, noted in any state, and leads from UP to WAITING |
| `ControlOutcomes.RunsWhileDown` | plugins/control/src/fsm_ctrl.c:259-269 | A modem that runs in DOWN leads to WAITING |
| `ControlOutcomes.DumpStarted` | plugins/control/src/fsm_ctrl.c:672-694 | A dump is told and keeps the request, in any state but INITIAL, UP and DUMPING |
| `ControlOutcomes.StartServed` | plugins/control/src/fsm_ctrl.c:467-484 | A start, reset or update in DOWN: refused out of service, else PACKAGING with a start held; a second request stops control |
| `ControlOutcomes.StopServed` | plugins/control/src/fsm_ctrl.c:549-561 | A stop in UP, WAITING or DUMPING is held; it leads to WAITING unless a reason is awaited or a dump is read |
| `ControlOutcomes.ResetServed` | plugins/control/src/fsm_ctrl.c:503-518 | A reset in UP is held under the timer, in DUMPING it is held |
| `ControlOutcomes.ResetWhileWaiting` | plugins/control/src/fsm_ctrl.c:486-501 | A reset in WAITING is held if a reason is awaited, and is a recovery step else |
| `ControlOutcomes.UpdateServed` | plugins/control/src/fsm_ctrl.c:520-547 | An update or a backup: PACKAGING without a report, or held while a reason is awaited or a dump is read |
| `ControlOutcomes.BackupIgnored` | plugins/control/src/fsm_ctrl.c:807-830 | A backup during a dump changes nothing |
| `ControlOutcomes.FailureServed` | plugins/control/src/fsm_ctrl.c:741-754 | A failed operation: the request fails, everything else in flight is forgotten, and a stop is held in WAITING |
| `ControlOutcomes.Unexpected` | plugins/control/src/fsm_ctrl.c:807-830 | An event stops control at its cell if and only if its state does not expect it |
| `ControlOutcomes.Covered` | plugins/control/src/fsm_ctrl.c:807-830 | After any expected event, what is held is nothing, the request that came, or the one held before; a stop is held for CLI_STOP and a failed operation only |
| `ControlMachine.TableRows` | plugins/control/src/fsm_ctrl.c:807-830 | The same for the table of control |
| `ControlMachine.Machine.NotifyEvent` | libs/utils/src/fsm.c:71-118 | The engine run on the table of control, with pre_op, failsafe and state_trans |
| `ControlMachine.Machine.ServeRequest` | plugins/control/src/fsm_ctrl.c:440-561 | The object's request and accept handlers |
| `ControlMachine.Machine.ServeEvent` | plugins/control/src/fsm_ctrl.c:151-257 | The object's flash, firmware, run and modem-state handlers |
| `ControlMachine.Machine.ServeDump` | plugins/control/src/fsm_ctrl.c:563-725 | The object's dump handlers and the restart after customization |
| `ControlMachine.Machine.EscalateTo` | plugins/control/src/fsm_ctrl.c:390-419 | The object's escalation |
| `ControlMachine.Machine.Resume` | plugins/control/src/fsm_ctrl.c:421-438 | The object's requested_operation |
| `ControlMachine.Machine.GoOutOfService` | plugins/control/src/fsm_ctrl.c:342-357 | The object's set_oos |
| `ControlMachine.Machine.RebootPlatform` | plugins/control/src/fsm_ctrl.c:368-388 | The object's platform_reboot |
| `ControlMachine.Machine.FallBack` | plugins/control/src/fsm_ctrl.c:741-754 | The object's failsafe: the request is answered, the state cleared, a stop injected |
| `ControlMachine.Machine.ChangeState` | plugins/control/src/fsm_ctrl.c:756-776 | The object's state_trans |
| `ControlMachine.Machine.BeforeOp` | plugins/control/src/fsm_ctrl.c:778-798 | The object's pre_op |
| `ObjectRuns.ControlThread` | plugins/control/src/fsm_ctrl.c:832-892 | The object driven from its start through any events: its messages to the watchdog alternate and end armed exactly outside UP and DOWN; its orders come in order, a modem that is up or on its way was not told to stop since, and a stop held while no reason is awaited was passed on to HAL; in a regular run each request was answered once or is the one held, the busy flag says whether an announced reason is pending, a reason stops control if and only if none is, and wherever the modem waits or its dump is over it is shut down if the last unanswered request is a stop, left alone if there is none, and else reset or given up |
| `Watchdog.ScalarRoundTrip` | plugins/control/src/watchdog.h:83-104 | Packing a request, an identifier and a timeout loses nothing and never gives the -1 that ends the thread; a negative timeout comes back masked |
| `WatchdogRuns.WatchdogSafety` | plugins/control/src/watchdog.c:52-184 | In every interleaving the messages of the request timer are START(0), STOP(0), START(1), ... with wrapping identifiers, armed exactly outside the states UP and DOWN; one ping at most is unanswered; the request timer is armed exactly when its wakelock is held; and only an expired deadline can stop the watchdog, the assertions of get_timeout included, unless the ping period is INT_MAX |
| `WatchdogRuns.LongestPeriodStops` | plugins/control/src/watchdog.c:74-75 | With a ping period of INT_MAX the watchdog stops at its first time-out if and only if the clock still shows the whole period: it does if it has not moved, and not once a millisecond has passed |
| `WatchdogRuns.TimedKeeps` | plugins/control/src/watchdog.c:103-179 | As the clock advances and messages set the timers again, the ping timer never shows more than the longest delay it is given |
| `WatchdogRuns.MoveKeeps` | plugins/control/src/watchdog.c:135-202 | Each move of control or of the watchdog keeps the protocol invariant |
| `WatchdogRuns.WatchTraffic` | plugins/control/src/fsm_ctrl.c:756-776 | One event of control sends nothing, a START, a STOP or both, according to the states it leaves and enters |
| `WatchdogRuns.DeadlineExactly` | plugins/control/src/watchdog.c:167-189 | An elapsed timer stops the watchdog if and only if it is the request timer, or the ping timer with a ping unanswered |
| `WatchdogRuns.TimersSet` | plugins/control/src/watchdog.c:80-130 | START arms the request timer for its own timeout, STOP changes no deadline, a pong ends the wait and sets the next ping one period ahead, and a ping is given ten seconds |
| `Watchdog.Thread.NextTimeout` | plugins/control/src/watchdog.c:52-78 | The loop elects the first timer due within a millisecond, else the first one with the least time left; its assertions hold if and only if some armed timer has less than INT_MAX left |
| `Watchdog.Thread.Handle` | plugins/control/src/watchdog.c:80-130 | The timers and wakelocks updated in place by a message |
| `Watchdog.Thread.Elapse` | plugins/control/src/watchdog.c:167-189 | The timers updated in place by an elapsed delay, and the ping sent |
| `HalRuns.ResourcesFollowState` | plugins/hal/sofia/src/fsm_hal.c:409-468 | In every run the timer is armed exactly in BOOTING, WAITING_RPC and STOPPING, the RPC daemon runs exactly in WAITING_RPC and RUN, the ping thread lives exactly in PINGING, so none of their assertions fires, and an answer to a ping never meets an asserting cell |
| `HalReports.StopAnswered` | plugins/hal/sofia/src/fsm_hal.c:182-195 | In every run, a modem that goes off while it is being stopped is reported BUSY and FLASH if the last request that stopped it was a reset, and BUSY and OFF if it was a stop or the failsafe operation |
| `HalReports.TrapReported` | plugins/hal/sofia/src/fsm_hal.c:232-253 | A trap is reported BUSY and DUMP if and only if dumps are enabled, else BUSY and NEED_RESET |
| `HalReports.FirmwareReported` | plugins/hal/sofia/src/fsm_hal.c:255-271 | A firmware failure while booting is reported BUSY and UNRESPONSIVE; elsewhere it stops the process |
| `HalReports.TimeoutReported` | plugins/hal/sofia/src/fsm_hal.c:286-297 | A modem too slow to boot, to answer the ping or to bring its RPC up is reported BUSY and NEED_RESET, and so is a ping that fails; one too slow to stop stops the process |
| `HalReports.RpcReported` | plugins/hal/sofia/src/fsm_hal.c:273-284 | RUN is reported once the RPC is up; an RPC that dies in use is reported BUSY and NEED_RESET |
| `HalReports.PingReported` | plugins/hal/sofia/src/fsm_hal.c:396-407 | An answered ping starts the RPC daemon and reports nothing |
| `HalReports.OnReported` | plugins/hal/sofia/src/fsm_hal.c:330-341 | A modem that comes on while booting is pinged; a secured one that was off stays so; elsewhere the event stops the process |
| `HalReports.OffReported` | plugins/hal/sofia/src/fsm_hal.c:182-230 | A modem that goes off by itself is reported BUSY and NEED_RESET, and BUSY and OFF or FLASH while it is being stopped |
| `HalReports.RequestReported` | plugins/hal/sofia/src/fsm_hal.c:141-180 | With the modem off, POWER and RESET are answered BUSY and FLASH, and STOP is answered BUSY and OFF; with the modem not off, POWER and BOOT stop the process |
| `HalReports.BootReported` | plugins/hal/sofia/src/fsm_hal.c:343-367 | A boot awaits the modem, pings a secured one that is on, and stops one that cannot be started |
| `HalReports.StopReported` | plugins/hal/sofia/src/fsm_hal.c:299-328 | A stop or a reset of a modem that is not off leads to STOPPING and remembers which of the two it is; a stop that fails is tried again as a stop |
| `HalReports.StartQuiet` | plugins/hal/sofia/src/fsm_hal.c:475-526 | The first event is OFF, or nothing while the modem is pinged |
| `HalControl.ReasonsAnnounced` | plugins/control/src/fsm_ctrl.c:778-798 | In every interleaving of HAL, control and the threads that post to control, with BUSY and its reason sent one after the other and failsafe allowed: what HAL has still to tell is announced if and only if no failsafe of the run came between a consumed BUSY and its reason, and then no move meets the assertion of pre_op |
| `HalControl.MoveExact` | plugins/hal/sofia/src/fsm_hal.c:141-211 | Each move keeps the announcement of what is pending, unless it is a failsafe with a reason pending that has no BUSY of its own, which always loses it |
| `HalControl.NeverDrained` | plugins/control/src/fsm_ctrl.c:778-798 | After such a failsafe no continuation ever empties the queue: the reason left without announcement cannot be got past |
| `HalControl.LastReasonStops` | plugins/control/src/fsm_ctrl.c:778-798 | When that reason is all that is pending, control stops at it |
| `HalControl.PreOpReached` | plugins/control/src/fsm_ctrl.c:741-754 | A run from the start of both threads that meets the assertion: EV_FAILURE lands between BUSY and FLASH |
| `HalRuns.StepKeeps` | plugins/hal/sofia/src/fsm_hal.c:475-575 | Each turn of the HAL loop keeps the correspondence and emits nothing, OFF, RUN, or BUSY followed by OFF or one reason |
| `HalRuns.EventKeeps` | libs/utils/src/fsm.c:86-117 | The same for one event through the engine, whose operation runs before state_trans |
| `HalRuns.TransitKeeps` | plugins/hal/sofia/src/fsm_hal.c:409-444 | state_trans releases exactly what the state left behind owned, and its assertions hold |
| `Hal.TableRows` | plugins/hal/sofia/src/fsm_hal.c:450-468 | The same for the table of the Sofia HAL |
| `Hal.Machine.NotifyEvent` | libs/utils/src/fsm.c:71-118 | The engine run on the table of the Sofia HAL |
| `Hal.Machine.Run` | plugins/hal/sofia/src/fsm_hal.c:121-407 | The object's operations |
| `Hal.Machine.StopTheModem` | plugins/hal/sofia/src/fsm_hal.c:299-312 | The object's stop_mdm |
| `Hal.Machine.BootTheModem` | plugins/hal/sofia/src/fsm_hal.c:343-367 | The object's request_boot |
| `Hal.Machine.Leave` | plugins/hal/sofia/src/fsm_hal.c:409-444 | The object's state_trans |
| `Hal.Machine.Turn` | plugins/hal/sofia/src/fsm_hal.c:527-569 | One turn of the event loop |
| `ObjectRuns.HalThread` | plugins/hal/sofia/src/fsm_hal.c:475-575 | The object driven from its start through any inputs: timer, RPC daemon and ping thread live exactly in the states that own them, every reason in the log follows a BUSY, and only three assertions can be met besides the one on the state found at boot |
| `WireProofs.StreamRoundTrip` | plugins/mdmcli_wire/src/mdmcli_wire.c:198-403 | Any sequence of messages within the limits and free of NUL is received, in order, from the concatenation of its serializations |
| `WireProofs.MessageRoundTrip` | plugins/mdmcli_wire/src/mdmcli_wire.c:198-403 | A message within the limits fits MSG_SIZE_MAX and is received as it was sent, whatever follows on the socket |
| `WireRequests.RequestReceived` | plugins/mdmcli_wire/src/mdmcli_wire.c:310-403 | Each of the ten requests, numbered behind the events in the order of the header, is serialized in the direction of the server and received as itself, with its events and name, its cause and debug data, or its debug data, whatever follows |
| `WireRequests.RequestsHandled` | plugins/mdmcli_wire/src/mdmcli_wire.c:310-403 | Any requests in a row: what client abstraction handles is what the library sent, event set, cause and kind of registration included |
| `WireRequests.HeaderBytes` | inc/plugins/mdmcli_wire.h:46-58 | The bytes of a request begin with its number and its total size; the six simple ones are nothing else |
| `WireRequests.RegisterBytes` | plugins/mdmcli_wire/src/mdmcli_wire.c:225-228 | A registration: the events, the length of the name, the name |
| `WireRequests.RestartBytes` | plugins/mdmcli_wire/src/mdmcli_wire.c:229-251 | A restart: the cause, then the fields and texts of the debug data, if any, in order |
| `WireRequests.NotifyBytes` | plugins/mdmcli_wire/src/mdmcli_wire.c:229-251 | A debug notification: the same without a cause |
| `WireRequests.EventReceived` | plugins/mdmcli_wire/src/mdmcli_wire.c:310-403 | Each event is received by the client as itself, debug information with its content |
| `WireRequests.BuildBitmap` | mdmcli/src/mdmcli.c:322-335 | The loop over the events asked for sets exactly their bits, and meets its assertion if and only if one is asked for twice |
| `WireRequests.Subscribe` | mdmcli/src/mdmcli.c:322-335 | The events a client asks for are those it is registered for in client abstraction |
| `WireProofs.AcceptedRoundTrip` | plugins/mdmcli_wire/src/mdmcli_wire.c:310-403 | An accepted message serializes to the bytes it came from if and only if no text holds a NUL and it is not a RESTART with no content |
| `WireProofs.NameFitsExact` | plugins/mdmcli_wire/src/mdmcli_wire.c:66-74 | Every message within the limits fits the buffers if and only if the longest name does |
| `WireProofs.EmptyRestartGrows` | plugins/mdmcli_wire/src/mdmcli_wire.c:360-395 | A RESTART with no content is accepted as cause 0 without debug data, and serializes to other bytes |
| `Wire.WordRoundTrip` | plugins/mdmcli_wire/src/mdmcli_wire.c:120-171 | A word read back from its four bytes in network order |
| `Wire.BytesRoundTrip` | plugins/mdmcli_wire/src/mdmcli_wire.c:120-171 | Four bytes written back from the word they make |
| `WireBuffer.Writer.Serialize` | plugins/mdmcli_wire/src/mdmcli_wire.c:198-258 | The buffer holds the serialization, the size being patched last; an assertion fails exactly on a message of the other direction or too big |
| `WireBuffer.Writer.PutText` | plugins/mdmcli_wire/src/mdmcli_wire.c:132-145 | serialize_string: length and content at the cursor, or the assertion on the space left |
| `WireBuffer.Writer.PutTexts` | plugins/mdmcli_wire/src/mdmcli_wire.c:248-249 | The loop over the debug strings |
| `WireBuffer.Reader.Receive` | plugins/mdmcli_wire/src/mdmcli_wire.c:310-403 | recv_msg on the preallocated buffer accepts, refuses and leaves on the socket what the specification says |
| `WireBuffer.Reader.GetText` | plugins/mdmcli_wire/src/mdmcli_wire.c:173-193 | deserialize_string, refusing a text that does not fit with its terminator |
| `WireBuffer.Reader.GetFive` | plugins/mdmcli_wire/src/mdmcli_wire.c:372-381 | Five reads that each overwrite the error: the last one tells about all |
| `Session.SessionReplay` | mdmcli/src/mdmcli.c:95-144 | For every interleaving of acquire, release, loss and reconnection, a drained session that the server neither dropped nor ignored has the acquired flag of the client, which is its last request; and the library never gives the server a reason to drop a session |
| `Session.MoveKeeps` | mdmcli/src/mdmcli.c:413-462 | Each move keeps: what is on its way makes the server's flag equal the client's, REGISTER comes first and once |
| `Session.RunWished` | mdmcli/src/mdmcli.c:413-462 | In every run the acquired flag of the library is the last of acquire and release that was not refused |
| `Session.RejectedAcquire` | plugins/client_abstraction/src/client_abstraction.c:827-848 | A server that rejects requests is a real exception: there is a run after which the flags differ |
| `ClaSessions.ReplayOnServer` | plugins/client_abstraction/src/client_abstraction.c:768-1110 | Session replay against client abstraction itself: in every run of the library and of the whole loop (other clients, control, time-outs, losses, compaction), the flag of a drained session in the array is the client's, which is what it asked for last, if and only if its last request stands: taken, or of no effect, and each mark that ended a hold since turns the answer round; and the session is registered unless the scan under way removes it |
| `ClaHolds.ReplayUnlessRefused` | plugins/client_abstraction/src/client_abstraction.c:768-1110 | In every run where control reports no OFF to a client abstraction that waits for shutdown acknowledgements, the flags of a drained session agree if and only if its last request was taken or changed nothing |
| `ClaHolds.TimeoutSpares` | plugins/client_abstraction/src/client_abstraction.c:1006-1031 | While the OFF shown during a shutdown is a faked one, no time-out ends the hold of a client |
| `ClaHolds.StepFaked` | plugins/client_abstraction/src/client_abstraction.c:364-391 | The OFF shown while shutdown acknowledgements are awaited stays a faked one until control reports OFF |
| `SessionServer.OwnHold` | plugins/client_abstraction/src/client_abstraction.c:768-944 | The hold after a message of the session: an ACQUIRE or RELEASE is done unless the client is marked, not registered or rejected; any other message ends the hold exactly if it marks the client |
| `ClaSessions.ServerKeeps` | plugins/client_abstraction/src/client_abstraction.c:970-1110 | Each step of the loop keeps the agreement, and the compaction moves the session to its new index |
| `ClaSessions.RunWished` | mdmcli/src/mdmcli.c:413-462 | The same with client abstraction on the other side |
| `SessionScripts.AcquireRejected` | plugins/client_abstraction/src/client_abstraction.c:827-848 | A run of the library and the server that leaves the flags apart: an acquisition after a SHUTDOWN request |
| `SessionScripts.HoldLostInSilence` | plugins/client_abstraction/src/client_abstraction.c:1011-1033 | Another one: a client marked in the time-out branch is forgotten before the next scan, so its session stays open, registered and drained without the hold it asked for; it takes an OFF that control reports though no stop was asked |
| `ClaFrame.StepKeepsSlot` | plugins/client_abstraction/src/client_abstraction.c:970-1110 | A step that is not about a client keeps its registration, and its hold exactly unless it marks the client |
| `ClaFrame.EventMild` | plugins/client_abstraction/src/client_abstraction.c:260-300 | No event of the machine changes the registration or the hold of a client it does not give up, nor raises the acquisition counter |
| `ClaFrame.RankFinds` | plugins/client_abstraction/src/client_abstraction.c:946-967 | An unmarked client is found, after the compaction, at its rank among the unmarked ones |
| `ClaFrame.RunSettled` | plugins/client_abstraction/src/client_abstraction.c:897-900 | Once a SHUTDOWN request was handled, every later state rejects requests with a counter of 0 |
| `SessionServer.HandlerFollows` | plugins/client_abstraction/src/client_abstraction.c:768-944 | For every context, socket and message, the slot of the socket changes as the session model says, or the session is given up |
| `Session.MdmCli.TryReconnect` | mdmcli/src/mdmcli.c:95-134 | reconnect: register and acquire again, or close the socket and stay in reconnection |
| `Session.MdmCli.HandleError` | mdmcli/src/mdmcli.c:136-167 | handle_error: the socket is closed, then reconnected or not |
| `Session.MdmCli.AcquireModem` | mdmcli/src/mdmcli.c:413-435 | mdm_cli_acquire: remembered while disconnected, else as the send goes |
| `Session.MdmCli.ReleaseModem` | mdmcli/src/mdmcli.c:440-462 | mdm_cli_release, likewise |
| `BridgeOutput.BridgeDelivery` | bridge/c/daemon/src/daemon.c:209-281 | In every run the frames queued are those removed, in order, then those still queued; a frame is removed on the acknowledgement of its own identifier or dropped once MAX_RETRIES connections were lost while it was first; none is begun more than MAX_RETRIES times; the daemon stops if and only if the bridge is lost with an empty queue and no wakelock message chosen last |
| `BridgeOutput.WakelockAgrees` | bridge/c/daemon/src/daemon.c:384-417 | In every run, once a wakelock message is acknowledged with the wakelock unchanged since it was chosen, the Java side has the state of the daemon |
| `BridgeOutput.WakelockFirst` | bridge/c/daemon/src/daemon.c:209-244 | When nothing is under way, the next message is about the wakelock if and only if Java does not know its state, it then says that state under a fresh identifier; else it is the first frame |
| `BridgeOutput.JavaKnown` | bridge/c/daemon/src/daemon.c:384-417 | In every run the state Java is taken to know is the one of the last wakelock message acknowledged since the last connection |
| `BridgeOutput.MoveKeeps` | bridge/c/daemon/src/daemon.c:377-464 | Each move keeps the delivery invariant, and exactly when it stops |
| `BridgeOutput.LoseKeeps` | bridge/c/daemon/src/daemon.c:260-281 | A loss charges the first frame, drops it at MAX_RETRIES, or meets the assertion |
| `BridgeOutput.IdleLossStops` | bridge/c/daemon/src/daemon.c:267-269 | A bridge that connects and leaves before anything is queued stops the daemon |
| `BridgeOutput.Bridge.FillPollfd` | bridge/c/daemon/src/daemon.c:209-244 | The choice of the next message, a wakelock change first |
| `BridgeOutput.Bridge.Remove` | bridge/c/daemon/src/daemon.c:260-281 | handle_java_bridge_remove in place |
| `BridgeOutput.Bridge.Readable` | bridge/c/daemon/src/daemon.c:384-417 | The acknowledgement read byte by byte, matched and acted upon |
| `BridgeOutput.Bridge.Writable` | bridge/c/daemon/src/daemon.c:419-437 | The message written piece by piece, then its acknowledgement awaited |
| `BridgeOutput.Bridge.Accept` | bridge/c/daemon/src/daemon.c:349-375 | A new bridge starts with nothing under way and no wakelock |
| `BridgeOutput.Bridge.QueueMsg` | bridge/c/daemon/src/daemon.c:445-464 | A frame joins the end of the queue with no retry |
| `BridgeInput.ChunkingIrrelevant` | bridge/c/daemon/src/daemon.c:466-558 | However a client's bytes are cut into reads, the wakelock operations, the queued frames and the decision to disconnect are the same |
| `BridgeInput.ReadIsSteps` | bridge/c/daemon/src/daemon.c:496-553 | One read of several bytes does what its bytes do one at a time |
| `BridgeInput.FrameQueued` | bridge/c/daemon/src/daemon.c:533-551 | A well-formed frame is queued whole and leaves the client ready for the next one |
| `BridgeCommands.CommandsServed` | bridge/c/daemon/src/daemon.c:503-551 | Any wakelock commands and good frames in a row, as bytes, from an idle client: the count is acquisitions minus releases, and each command is done in its order, a frame being queued whole |
| `BridgeCommands.LostExact` | bridge/c/daemon/src/daemon.c:514-531 | The client is lost if and only if some prefix releases more than was acquired |
| `BridgeCommands.FirstBadRelease` | bridge/c/daemon/src/daemon.c:514-531 | It is lost at the first such release: what came before is done, what follows is not read |
| `BridgeCommands.HeaderLoses` | bridge/c/daemon/src/daemon.c:503-531 | Any eight bytes: the header loses an idle client if and only if a wakelock command has content or releases nothing, or another command is unknown or too big |
| `BridgeInput.Clients.Event` | bridge/c/daemon/src/daemon.c:466-558 | handle_c_client_event in place; the wakelock asked for equals "some connected client has a positive count" before and after |
| `BridgeInput.Clients.HeaderDone` | bridge/c/daemon/src/daemon.c:503-544 | The same for a complete header |
| `BridgeInput.Clients.WakelockChange` | bridge/c/daemon/src/daemon.c:249-258 | The loop that stops at the first holder computes whether there is one |
| `BridgeInput.Clients.Remove` | bridge/c/daemon/src/daemon.c:283-294 | A removal recomputes the wakelock only if the client held it, and that is enough |
| `BridgeInput.Clients.Connect` | bridge/c/daemon/src/daemon.c:318-347 | A new client takes the first free slot and changes no wakelock |
| `BridgeInput.Clients.Expire` | bridge/c/daemon/src/daemon.c:296-308 | The time-out removes exactly the clients whose frame is late |
| `Intent.IntentRoundTrip` | bridge/java/src/com/intel/telephony/javabridge/DaemonSocket.java:190-247 | The frame built by the library is one that the daemon queues as it is, and the Java reader recovers the command, the name and every parameter in order, with the identifier to acknowledge |
| `Intent.FrameServed` | bridge/c/daemon/src/daemon.c:503-551 | The daemon queues the library's frame if and only if its content is shorter than 2048 bytes; else it loses the client at the header and queues nothing |
| `Intent.Layout` | bridge/c/lib/src/telbridgelib.c:66-76 | The bytes of a value: a number is the size 4, the type 0 and the number, a text its length, the type 1 and its content |
| `JavaLoop.StreamDelivered` | bridge/java/src/com/intel/telephony/javabridge/DaemonSocket.java:184-255 | Any sequence of wakelock messages and library frames is acted on one by one, in order, each followed by the acknowledgement of its own identifier, and leaves the loop ready for the next |
| `JavaLoop.ReadThen` | bridge/java/src/com/intel/telephony/javabridge/DaemonSocket.java:190-215 | One read followed by the rest of the stream does what the stream does at once: the cut into reads does not matter |
| `JavaLoop.OneMessage` | bridge/java/src/com/intel/telephony/javabridge/DaemonSocket.java:190-255 | One message with content makes the loop deliver and acknowledge what the message-level reader says, or quit |
| `JavaLoop.DaemonSocket.Run` | bridge/java/src/com/intel/telephony/javabridge/DaemonSocket.java:184-255 | The loop in place, over a stream that delivers as many bytes as it pleases at each read, does what the stream says |
| `JavaLoop.DaemonSocket.Turn` | bridge/java/src/com/intel/telephony/javabridge/DaemonSocket.java:191-254 | One turn of the loop in place |
| `JavaLoop.DaemonSocket.HeaderDone` | bridge/java/src/com/intel/telephony/javabridge/DaemonSocket.java:192-213 | The complete header: a message to wait for, a wakelock operation acknowledged, or an exception |
| `JavaLoop.DaemonSocket.ContentDone` | bridge/java/src/com/intel/telephony/javabridge/DaemonSocket.java:215-253 | The complete content: dispatched and acknowledged, or an exception |
| `Intent.ContentCounted` | bridge/c/lib/src/telbridgelib.c:95-154 | The size pass counts exactly the bytes of the write pass |
| `Intent.ParamsRead` | bridge/java/src/com/intel/telephony/javabridge/DaemonSocket.java:225-243 | The reader's loop up to the end of the buffer recovers every name and value |
| `Intent.BuildMessage` | bridge/c/lib/src/telbridgelib.c:95-154 | A well-formed format and argument list never meets an assertion and fills the buffer exactly with the frame; an ill-formed one is refused |
| `Intent.FormatSize` | bridge/c/lib/src/telbridgelib.c:101-122 | The size pass accepts exactly the well-formed formats and computes the size of their parameters |
| `Intent.Buffer.PutFormat` | bridge/c/lib/src/telbridgelib.c:135-154 | The write pass puts the parameters of the format at the cursor, or meets the assertion on the space left |
| `Intent.Buffer.PutString` | bridge/c/lib/src/telbridgelib.c:66-76 | serialize_string: length, type and content |
| `JavaReader.WireMsg.AppendData` | bridge/java/src/com/intel/telephony/javabridge/DaemonSocket.java:75-87 | The bytes of the stream go in at the position, however they are delivered; a full buffer is rewound |
| `JavaReader.WireMsg.ReadTyped` | bridge/java/src/com/intel/telephony/javabridge/DaemonSocket.java:104-125 | getSerializedType on the buffer: a number, a text, or the exception |
| `JavaReader.WireMsg.ReadParams` | bridge/java/src/com/intel/telephony/javabridge/DaemonSocket.java:225-243 | The loop over the parameters |
| `JavaReader.WireMsg.Handle` | bridge/java/src/com/intel/telephony/javabridge/DaemonSocket.java:216-249 | The dispatch of a complete message |
| `Escalation.ClosedForm` | plugins/escalation/src/escalation.c:100-141 | From a fresh start with stored counter r and no stable period, the answers are exactly warm^w cold^c reboot^max(0, b - r), then out of service for ever |
| `Escalation.NextTakesFirst` | plugins/escalation/src/escalation.c:100-141 | From any state, get_next_step takes the first attempt left and leaves the others |
| `Escalation.RebootsBounded` | plugins/escalation/src/escalation.c:76-95 | Across any calls of both entry points and any restarts, at most b reboots are answered between two stable periods |
| `Escalation.DisabledAnswers` | plugins/escalation/src/escalation.c:106-109 | Disabled, every answer is a cold reset |
| `Escalation.LastExact` | plugins/escalation/src/escalation.c:146-160 | get_last_step answers a reboot if and only if the stored counter allows one, out of service or not |
| `Escalation.StableRestores` | plugins/escalation/src/escalation.c:100-141 | The first call after a stable period answers the first level with attempts and leaves all the others of the configuration, reboots included; out of service is for good |
| `Escalation.NextLevel` | plugins/escalation/src/escalation.c:64-74 | The next level is the first one with attempts, else the last one |
| `Escalation.Module.GoNextStep` | plugins/escalation/src/escalation.c:64-74 | The do-while loop finds that level and never leaves the array |
| `Escalation.Module.GetNextStep` | plugins/escalation/src/escalation.c:100-141 | get_next_step in place |
| `Escalation.Module.GetLastStep` | plugins/escalation/src/escalation.c:146-160 | get_last_step in place |
| `Escalation.Module.constructor` | plugins/escalation/src/escalation.c:177-226 | The first level with attempts is current after the initialisation |
| `Ipc.Ring.Serve` | libs/utils/src/ipc.c:141-193 | Any interleaving of locked sends and gets makes the ring behave as a FIFO of at most eight messages: what was queued and accepted equals what was delivered and is still queued, in order |
| `Ipc.FifoConserves` | libs/utils/src/ipc.c:141-193 | The bounded FIFO delivers every accepted message once, in order |
| `Ipc.Ring.SendMsg` | libs/utils/src/ipc.c:169-193 | A send is refused exactly on a full or closed ring and else appends; one byte of the pipe per message |
| `Ipc.Ring.GetMsg` | libs/utils/src/ipc.c:141-164 | A get takes the first message, and finds its byte in the pipe, so the read does not block |
| `Ipc.Ring.Dispose` | libs/utils/src/ipc.c:57-77 | Each pending message is freed once, in order |
| `Time.DeadlineExact` | libs/utils/src/time.c:34-44 | The deadline denotes exactly now + ms, for every clock value and every ms |
| `Time.DeadlineNotNormalized` | libs/utils/src/time.c:40-43 | The deadline is not normalized exactly when the nanoseconds add up to a whole second |
| `Time.RemainAccurate` | libs/utils/src/time.c:49-61 | The remaining time is never negative, less than a millisecond away from the true distance, and 0 once the deadline has passed |
| `Time.RemainMonotone` | libs/utils/src/time.c:49-61 | It never increases as the clock advances |
| `Time.TimerBounds` | libs/utils/src/time.c:34-61 | A timer starts at exactly its delay and never shows more |
| `Time.Timespec.AddMs` | libs/utils/src/time.c:34-44 | The timespec is overwritten with that deadline |
| `Tlv.ChunkingLossless` | plugins/customization/src/customization.c:112-132 | Decoding the offsets and decimal bytes of the commands gives the file back, for every content |
| `Tlv.CommandRead` | plugins/customization/src/customization.c:115-131 | One command decodes to its offset and its bytes |
| `Tlv.CommandText` | plugins/customization/src/customization.c:112-140 | The exact text of a command, with the offset and the bytes in decimal separated by commas, and of the execution request |
| `Tlv.Encode` | plugins/customization/src/customization.c:112-132 | The nested loop writes the command into its buffer, and none of the assertions on the index can fail |
| `Tlv.HeaderLength` | plugins/customization/src/customization.c:44-49 | A 64-bit offset leaves the header within the room set aside for it |
| `Tlv.WriteTlv` | plugins/customization/src/customization.c:112-140 | Every command then the execution request are sent, up to the first failure |
| `Tlv.WriteTlvs` | plugins/customization/src/customization.c:105-155 | The files are sent in order, up to the first failure: an error is the failure of the last send, and none failed before it |

## Left out

- Sockets, pipes, poll, fork, dlopen, ioctl, sysfs and netlink: channels and free events stand for them.
- The PCIe HAL: unfinished cells and timing workarounds leave few unconditional invariants; Sofia is the modelled machine.
- The process factory, whose outcome depends on signal and pid races.
- crm_ifwd, archive, dump and firmware upload: wrappers over the download library, zlib and file copies.
- Firmware election: directory scanning around an equality check.
- The AT line reader, which depends on stale buffer bytes.
- Logging, properties, string helpers, wakelock services, and the Java classes behind DaemonSocket.
- The content of debug information and its lifetime: the model keeps whether it is there.
- Liveness: that acknowledgements arrive or the modem boots.
- End of the threads: the message that stops a loop, and what is freed then.
- The first connection of the library: mdm_cli_connect is taken as done, and its window between thread creation and REGISTER is not modelled.
- Memory: the model has no freed or uninitialised memory, so the log line that reads a freed frame and the unset message address of the daemon appear only through what they compare equal to.
- Control's calls to the Java bridge and to the firmware elector are not logged; between HAL and control, HAL accepts any request at any time, and not only those that control orders.
- ClaDelivery.ClientsInformed: speaks of the state and not of every event, because a client at the place of one that left is passed over by a time-out, which ClaDelivery.StepTells states exactly and DeliveryScripts.LiveClientSkipped reaches.
- ClaRequests.StartsWhenOff: excludes a stop that fails while the modem is shown neither off nor unresponsive, because the property is false of client abstraction alone, which ClaScripts.StartsWhileBusy shows; with control, SystemRequests.StartsWhenOff needs no such condition.
- SystemRequests.RequestsExpected: excludes stray HAL events, because a start can then meet WAITING, which SystemScripts.StrayStart shows.
- System.RequestConservation: excludes the failsafe and a backup request during a dump, because the property is false there, which System.IrregularMove shows for every such event and SystemScripts for a run that reaches each.
- SessionScripts.HoldLostInSilence: is a run of client abstraction and the library, with control's messages as inputs; the Sofia HAL sends OFF only at its start or for a stop request, so the OFF it takes is one that this HAL does not send.
- JavaLoop.DaemonSocket.Run: characters are bytes, where the readers and writers of Java decode and encode a charset; a size that exhausts the memory is not modelled.
- Session.SessionReplay: a send puts the whole message on the socket or nothing, because a partly written message makes the server drop the session.
- BridgeInput.ChunkingIrrelevant: time-outs aside, because they depend on when the reads happen, and identifiers aside, because they are shared by all clients.
- BridgeOutput.Bridge.QueueMsg: the queue is a sequence and not a linked list, so the link to its last cell and the assertion on it are not modelled.
- ClaClients.ClientList.UpdateClientList: a client's descriptor is part of its record, where the source moves two parallel arrays.
- Intent.BuildMessage: arguments that do not go with the format are refused, where a variable argument list gives undefined behaviour.
- Watchdog.Thread.NextTimeout: the time left of each timer is an argument; WatchdogRuns computes it from the clock.
- WatchdogRuns.WatchdogSafety: a timer may elapse at any time, and not only once its delay is over, because nothing proved depends on it.
