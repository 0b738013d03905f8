# A verified model of the agent's outbox, connection and bot lifecycle

This project models three parts of the ClawQuant agent and proves what they keep over every
interleaving of their goroutines.

* **The durable log outbox.** `emitLog` hands a bot's log record to a bounded channel, or saves it
  itself when the channel refuses it. One worker moves records from the channel into the `logs` table
  and raises a one-slot wake-up; another drains unsynced rows in id order, in batches of 100, over a
  connection that may fail at any write, and marks what it has sent. `Drain.dfy` is
  `syncUnsyncedLogs` as an imperative method over the `Store` class of `Storage.dfy`; `Outbox*.dfy` is
  the whole outbox as a state machine, including deletes, store failures and a crash of the agent
  followed by a restart on the same database; `OutboxProgress.dfy` shows that it gets there, `OutboxLimits.dfy` where it does not, and
  `OutboxDurability.dfy` what outlives a crash.
* **Connection generations.** Every successful connect makes a socket, a cancel function, a done
  channel and a `sync.Once`. `Generations*.dfy` lets any number of `handleDisconnect` calls, stale ones
  included, race with `Close` and the supervisor; `SendQueue*.dfy` puts the send channel and one write
  pump per generation on top; `Composition.dfy` runs the log workers and the connection as one machine
  and shows that it refines the outbox; `Manager.dfy` is the manager's methods as one goroutine runs
  them, as a class, with the steps of the machines that they are.
* **The bot process lifecycle.** `Lifecycle*.dfy` lets StartBot, StopBot and RestartBot calls, children,
  stdout readers and process monitors interleave; the goroutines find each other by bot id only.
  `StopAll.dfy` is `StopBot` and `StopAll` as imperative methods over that machine, and `PythonEnv.dfy`
  the environment handed to a child.

## How the machines are built

A machine is a `State`, an `Action` type that carries every choice the surroundings make (what fails,
what a query returns, which goroutine moves), a predicate `Enabled` and a function `Apply`. An action
is one atomic step of one goroutine: a critical section, a channel operation, one store call, one
socket write, one atomic load. `Run` chains steps; theorems quantify over every `Reachable` state or
every run. Fields described as history record the past for the statements and decide nothing.

| file | actions and where they come from |
|---|---|
| Outbox.dfy | Emit*, FallbackSave: process/manager.go 399-422, connection/manager.go 203-237; Persist*: 536-562; Sync*: 564-630, 776-792; Connect, Announce, Nudge: 313-333, 163, 752-757; Disconnect: 632-642; Delete: storage/sqlite.go 269-279; Restart: app/app.go 34-62 |
| Generations.dfy | ConnectBegin, DialFail: connection/manager.go 134-151; Install, Announce: 288-336; ReadDone to StopSupervising: 462-508; Report*: 632-665; Close*: 253-286 |
| Composition.dfy | Link, Log: the steps of Generations and Outbox, on one set of connection fields; Drop: connection/manager.go 786-789 with 632-642 |
| SendQueue.dfy | Send: connection/manager.go 172-201; Take, Write, Report, Leave: 416-430 |
| Lifecycle.dfy | Start*, Spawn*, SecondCheck, KillLoser, ReapLoser, EmitRunning: process/manager.go 103-208; Reader*, Read*: 210-234, 384-387; Monitor*: 236-267; Stop*: 269-300; Restart*: 302-317 |

## Model

| member | source | states |
|---|---|---|
| Storage.BatchIsPrefixOfUnsynced | internal/storage/sqlite.go:148-154 | the query by id with a limit has exactly one answer: the first n unsynced rows in id order |
| Storage.MarkPrefix | internal/storage/sqlite.go:205-209 | marking the first k unsynced rows leaves exactly the others unsynced, in order |
| Storage.Store.SaveLog | internal/storage/sqlite.go:117-134 | on success a new, unsynced row under the next id has the given fields and time, its data being the given data unless that is all white space, then "{}"; every other row is unchanged; a failure changes nothing |
| Storage.Store.GetUnsyncedLogs | internal/storage/sqlite.go:136-180 | returns what the declarative query demands, 100 rows for a limit of 0 or less, or an error |
| Storage.Store.MarkLogsSynced | internal/storage/sqlite.go:186-211 | afterwards every row is as before but for synced, which is also set on exactly the given ids; an empty list succeeds without touching the database |
| Storage.Store.DeleteBotLogs | internal/storage/sqlite.go:269-279 | afterwards no row of that bot is left, every other row is there unchanged and there are no new ones; a failure changes nothing |
| Storage.DeletedExactly | internal/storage/sqlite.go:269-279 | and that determines the whole table, as the outbox's delete step has it |
| Drain.LogSync.SyncUnsyncedLogs | internal/connection/manager.go:584-630 | terminates; nil means nothing unsynced is left, after exactly floor(n/100)+1 calls of GetUnsyncedLogs; otherwise says at which row and how much was marked; frames are those of a prefix, once each, in id order; handleDisconnect is called once exactly if a write failed; without faults it returns nil |
| Drain.LogSync.DrainBatch | internal/connection/manager.go:589-629 | one turn of the outer loop asks the store once, or not at all if the connection is gone; another turn follows only a full, sent and marked batch |
| Drain.LogSync.SendAndMark | internal/connection/manager.go:603-624 | a failed write leaves the failing row and everything after it unsynced when the partial mark succeeds |
| Drain.LogSync.SendBatch | internal/connection/manager.go:603-620 | collects ids up to the first failed write; rows that cannot be encoded count as handled |
| Drain.LogSync.WriteDirect | internal/connection/manager.go:776-792 | puts a frame on the wire or reports why not; a failed write, and only that, calls handleDisconnect |
| Drain.FrameOfRow | internal/connection/manager.go:604-619 | each encodable row's frame is on the wire at the position given by the encodable rows before it |
| OutboxIntake.SaveHeldKeeps | internal/connection/manager.go:548-559 | the persist worker's insert keeps records, acceptance numbers and rows matched one to one and in order |
| OutboxDelivery.HandleRowKeeps | internal/connection/manager.go:604-619 | handling an entry keeps the wire and the table consistent |
| OutboxDelivery.MarkHandledKeeps | internal/connection/manager.go:612-628 | marking a full or partial batch, or failing to, keeps synced rows a prefix and the wire consistent |
| OutboxDelivery.QueryKeeps | internal/connection/manager.go:594-602 | a fresh batch is the oldest unsynced rows, and none of its unwritten rows lies below a written one |
| OutboxRuns.StepKeeps | internal/connection/manager.go:536-630 | every step of the outbox keeps the whole invariant |
| OutboxRuns.NoLostWakeup | internal/connection/manager.go:536-630 | a queue row waits only while a wake-up is pending or the pass in progress will see it |
| OutboxRuns.QuietMeansSynced | internal/connection/manager.go:564-582 | connected and quiet, every queue row is synced and its encodable rows are on the wire |
| OutboxRuns.SyncedRowsAreAPrefix | internal/storage/sqlite.go:148-153 | no unsynced row has a smaller id than a synced one, in any run |
| OutboxRuns.WireAgainstTable | internal/connection/manager.go:603-624 | synced rows were written or cannot be encoded; written rows are downward closed; first occurrences in id order |
| OutboxRuns.WireIsExact | internal/connection/manager.go:603-624 | whatever fails, the wire carries exactly the encodable ones of the entries handled, in the order they were handled; while no mark fails and the agent does not die mid-batch, rows are handled once each, in id order, and of the rows in the table exactly those marked or about to be |
| OutboxRuns.RecordConservation | internal/process/manager.go:399-422 | a record is in exactly one place: a channel slot, the worker's hand, one row with its own content, its caller, or gone |
| OutboxRuns.FaultlessRecordIsKept | internal/process/manager.go:399-422 | without store failures, deletes or a crash no record is gone |
| OutboxRuns.QueueRowsInAcceptanceOrder | internal/connection/manager.go:548-554 | rows from the queue are in acceptance order |
| OutboxRuns.FallbackOvertakesAtMost257 | internal/connection/manager.go:28-28 | a row saved by its caller overtakes at most 256 queued records and one in hand |
| OutboxProgress.TidyRunsEnd | internal/connection/manager.go:536-630 | fault-free steps of the two workers, in any order, are bounded by a measure of the work there is |
| OutboxProgress.TidyStepPossible | internal/connection/manager.go:536-630 | until all is settled one of them is possible |
| OutboxProgress.AcceptedRecordsArrive | internal/connection/manager.go:203-237 | once they have nothing left to do, every record that was still in the channel or in hand has a row, marked, and on the wire if it can be encoded, earlier store errors or not |
| OutboxProgress.SettlesAlone | internal/connection/manager.go:536-630 | from every connected state such a run exists |
| OutboxProgress.RowIsSyncedIff | internal/connection/manager.go:536-630 | an unsynced row is marked by such a run, whatever its schedule, exactly if a wake-up, a record that will cause one, or the pass in progress was going to notice it at the start |
| OutboxLimits.RejectedRecordIsStranded | internal/process/manager.go:412-421 | a row saved by the emitLog caller raises no signal: in a quiet state it stays unsynced |
| OutboxLimits.RejectedRecordIsSyncedIff | internal/process/manager.go:412-421 | such a row is marked once the workers have nothing left to do exactly if a wake-up was pending, the pass in progress was going to query again, or the persist worker still had a record in hand or in the channel |
| OutboxLimits.StrandedRowWitness | internal/process/manager.go:404-421 | a full channel refuses a record, the workers clear it, the caller saves: everything is settled, nothing has failed, and the row stays unsynced |
| OutboxLimits.FailedPassRowIsSyncedIff | internal/connection/manager.go:594-626 | a row left behind by a failed query or a failed mark is marked by the workers exactly if a wake-up was pending or the persist worker still had a record |
| OutboxLimits.NothingButASignal | internal/connection/manager.go:564-582 | while the sync worker sleeps without a signal, no run without one ever marks a row |
| OutboxLimits.AnySignalSuffices | internal/connection/manager.go:752-757 | and after any signal the workers mark every row |
| OutboxLimits.FailedQueryWitness | internal/connection/manager.go:594-597 | such a row after a failed query: connected, settled, waiting |
| OutboxLimits.FailedMarkWitness | internal/connection/manager.go:622-624 | and after a failed mark, with its frame already on the wire if it can be encoded |
| OutboxDurability.RowsAreKept | internal/storage/sqlite.go:117-134 | in every run, failures and restarts of the agent included, a row stays, says what it said and stays marked, unless its own bot's logs are deleted |
| OutboxDurability.DeletedRowsAreGone | internal/storage/sqlite.go:269-279 | a delete leaves no row of its bot |
| OutboxDurability.RestartedAgentSyncs | internal/app/app.go:34-62 | the agent dies at any moment and another opens the same database and connects: once its workers have nothing left to do, every row the first one left is marked and on the wire if it can be encoded |
| OutboxDurability.RestartedAgentSettles | internal/app/app.go:34-62 | and such a run exists whenever it dies |
| Composition.ShadowStep | internal/connection/manager.go:536-665 | each step of log workers, connection and failing log writes together is the step of the outbox that it looks like, or none |
| Composition.RefinesOutbox | internal/connection/manager.go:288-336 | so every reachable state of the whole shows a reachable state of the outbox and keeps the generations in order |
| Composition.NoRowIsForgotten | internal/connection/manager.go:462-665 | over the manager's own connection fields: a waiting row has a signal coming or a pass that will see it while there is a connection, and that or a supervisor bound to reconnect while there is none |
| GenerationsRuns.StepKeeps | internal/connection/manager.go:462-508 | every step of connects, disconnects, supervisor and Close keeps the whole invariant |
| GenerationsRuns.SingleOpenGeneration | internal/connection/manager.go:313-322 | at most one installed connection is open, and it is the newest |
| GenerationsRuns.InstallFindsAllClosed | internal/connection/manager.go:462-508 | a connection is installed only after every earlier socket and done channel is closed, once |
| GenerationsRuns.DoneClosedAtMostOnce | internal/connection/manager.go:660-664 | no done channel is closed twice, by any mix of reports and Close |
| GenerationsRuns.NoLostDisconnect | internal/connection/manager.go:467-477 | the supervisor waits on the current done channel, which is closed or about to be whenever the connection is gone |
| GenerationsRuns.PromiseIsKept | internal/connection/manager.go:652-664 | a handleDisconnect that captured a done channel closes it by its own remaining steps |
| GenerationsRuns.PromiseStands | internal/connection/manager.go:632-664 | nobody else's step takes that capture away |
| GenerationsRuns.OpenAfterClose | internal/connection/manager.go:253-286 | after Close and all reports, a connection is open exactly if one was installed after Close took the lock and is still current |
| GenerationsRuns.OpenAfterCloseWitness | internal/connection/manager.go:304-322 | that happens when Close arrives while a reconnect is authenticating |
| GenerationsRuns.BackoffClosedForm | internal/connection/manager.go:465-505 | the delay after k failures is min(3*2^k, 60) seconds in every run |
| GenerationsRuns.TotalWaiting | internal/connection/manager.go:465-505 | total waiting over n attempts is 3(2^n-1) up to 5 attempts and 93+60(n-5) after |
| GenerationsProgress.LostConnectionIsReplaced | internal/connection/manager.go:462-508 | a waiting supervisor whose connection is gone gets a new, open one by its own steps and those left to one report, and its backoff starts afresh |
| GenerationsProgress.FailedAttemptsBackOff | internal/connection/manager.go:484-500 | n failed attempts have waited for the n delays of their turns and make the next one longer up to the bound |
| GenerationsProgress.CancelEndsSupervision | internal/connection/manager.go:467-495 | a cancelled context ends the supervisor, wherever it is, without a new connection |
| SendQueue.MessageConservation | internal/connection/manager.go:193-200 | an accepted message is delivered, queued, held by a pump or lost, exactly one of these, once |
| SendQueue.DeliveredInAcceptanceOrder | internal/connection/manager.go:416-430 | over all generations the delivered messages are a subsequence of the accepted ones |
| SendQueue.AtMostOneLossPerGeneration | internal/connection/manager.go:423-427 | a generation loses at most one message, stale pump or not |
| SendQueue.StaleReportHitsIff | internal/connection/manager.go:423-427 | a pump's report takes down another generation's connection exactly when there is a connection and the pump's is not the newest |
| SendQueue.StalePumpWitness | internal/connection/manager.go:416-430 | that is reachable: an old pump's write fails after the reconnect |
| SendQueueProgress.PumpDrainsQueue | internal/connection/manager.go:416-430 | a pump in its select on an open socket can deliver all that is queued, in order, and changes nothing else |
| SendQueueProgress.ReconnectFlushes | internal/connection/manager.go:313-329 | what was left in the channel can go out on the next connection |
| SendQueueProgress.LossNeedsFailure | internal/connection/manager.go:423-427 | only a failed write loses a message |
| SendQueueProgress.ReportNeedsLoss | internal/connection/manager.go:423-427 | a pump reports a dead connection only after a write of its own has failed |
| SendQueueProgress.LeavingPumpTakesNothing | internal/connection/manager.go:419-427 | a pump that has left or reported takes no further message |
| Manager.ConnectionManager.Send | internal/connection/manager.go:172-201 | says exactly when it accepts, when the queue is full and when there is no connection; appends to the channel exactly when it returns nil |
| Manager.ConnectionManager.SendLog | internal/connection/manager.go:203-237 | the same for log records, connected or not, encodable data being checked first |
| Manager.ConnectionManager.ConnectOnce | internal/connection/manager.go:288-336 | installs one new generation and signals, or changes nothing |
| Manager.ConnectionManager.HandleDisconnect | internal/connection/manager.go:632-665 | its effect on the fields and on the generation |
| Manager.ConnectionManager.Close | internal/connection/manager.go:253-286 | its effect, and that a second call has none |
| Manager.ConnectionManager.WriteDirect | internal/connection/manager.go:776-792 | a failed write disconnects, a missing connection does not |
| Manager.SendIsStep | internal/connection/manager.go:172-201 | a Send that returns nil is the queue machine's Send with the same queue; it returns nil exactly if that is possible on a started, open and connected manager and the context does not win |
| Manager.SendLogIsStep | internal/connection/manager.go:203-237 | SendLog is the outbox's acceptance or rejection, possible there and with the same queue, according to what it returns |
| Manager.ConnectOnceIsRun | internal/connection/manager.go:288-336 | a connectOnce that has dialled is the run Install, Announce of the whole |
| Manager.FailedConnectIsRun | internal/connection/manager.go:294-308 | one that fails leaves connection and outbox as they were |
| Manager.WriteDirectIsRun | internal/connection/manager.go:776-792 | writeDirect of a row, with its handleDisconnect, is a run of the whole; the row is on the wire and counted as handled exactly if it returns nil |
| Manager.DisconnectIsRun | internal/connection/manager.go:632-665 | handleDisconnect without interruption is a run of the machine's steps for it |
| Manager.CloseIsRun | internal/connection/manager.go:253-286 | Close without interruption is a run of the machine's steps for it |
| Manager.DisconnectTwice | internal/connection/manager.go:632-646 | a second report of the same disconnect changes nothing |
| Manager.SuperviseReconnects | internal/connection/manager.go:462-508 | for any list of outages, the delays slept in each are those of a fresh backoff, one for each attempt |
| LifecycleInv.StepKeeps | internal/process/manager.go:103-317 | every step of the lifecycle keeps the whole invariant |
| LifecycleInv.FindsItself | internal/process/manager.go:210-240 | a goroutine that looks its bot id up finds its own incarnation |
| LifecycleRuns.IncarnationSafety | internal/process/manager.go:210-266 | readers and monitors work on their own incarnation and close each channel once |
| LifecycleRuns.EntryStaysWhileReading | internal/process/manager.go:236-262 | the registry entry stays until the reader has finished |
| LifecycleRuns.DeletesOwnEntry | internal/process/manager.go:260-262 | the monitor deletes its own entry and no other |
| LifecycleRuns.OneIncarnationPerBot | internal/process/manager.go:189-200 | at most one registered incarnation per bot id, with the command that started it saved |
| LifecycleRuns.ChildAccounting | internal/process/manager.go:171-200 | a child is held by a StartBot call, registered or reaped, exactly one; a loser is killed and reaped |
| LifecycleRuns.OneTerminalStatus | internal/process/manager.go:242-266 | each incarnation's terminal status is sent once, before Done closes |
| LifecycleRuns.TerminalStatusIsOwn | internal/process/manager.go:245-254 | "error" exactly if stop was not requested at the load and Wait failed or its own reader's last exit code is nonzero as int32 |
| LifecycleRuns.StopReturnsNil | internal/process/manager.go:269-300 | nil means the captured incarnation has left the registry, its status is sent, its Done is closed |
| LifecycleRuns.StopCompletes | internal/process/manager.go:288-299 | after exit and end of output, a bounded number of own steps under any schedule releases every waiting StopBot |
| LifecycleRuns.OwnStepPossible | internal/process/manager.go:236-299 | until then such a step is always possible: no mutual blocking |
| LifecycleRuns.OwnStepsSuffice | internal/process/manager.go:236-267 | and own steps alone lead there |
| LifecycleRuns.RestartOrder | internal/process/manager.go:302-317 | the stopped incarnation's terminal status precedes the new "running", and the new one runs the saved command |
| LifecycleHistory.StatusFromHistory | internal/process/manager.go:242-254 | the terminal status in terms of the run: "stopped" if the monitor found the flag set, else an error if the child exited with one or the last exit code its own reader read is nonzero as int32, else "stopped" |
| LifecycleHistory.StopIsHonoured | internal/process/manager.go:275-299 | once a StopBot call waits for an incarnation whose monitor has not looked yet, its status is "stopped" in every run |
| LifecycleHistory.FlagNeedsStopBot | internal/process/manager.go:245-275 | the monitor finds the flag set only if a StopBot call of the run had captured this very incarnation |
| LifecycleHistory.CrashIsReported | internal/process/manager.go:245-250 | a bot nobody stopped reports its crash |
| LifecycleHistory.ExitIsReported | internal/process/manager.go:236-267 | whenever a running child exits, its own goroutines' steps can follow and send the status its end and its exit lines ask for |
| LifecycleHistory.ExitLineIsRead | internal/process/manager.go:210-234 | an exit line can be read when it is written, and its code is then the last one known |
| LifecycleProgress.StartBotStarts | internal/process/manager.go:103-208 | a valid StartBot for a free bot id can go all the way: registered, saved, announced, running the command as a new incarnation |
| LifecycleProgress.RefusedStartSpawnsNothing | internal/process/manager.go:103-121 | for a taken bot id or an invalid command the call never has a child, in any later state |
| LifecycleProgress.FailedStartSpawnsNothing | internal/process/manager.go:123-172 | nor has one that failed on the way to its child |
| LifecycleProgress.FailedStartIsReported | internal/process/manager.go:123-127 | a call that fails past its first check leaves an error status in the trace |
| LifecycleProgress.LosingStartNeverRegisters | internal/process/manager.go:189-197 | a call that loses the second check never registers its child |
| LifecycleProgress.RestartStopsIff | internal/process/manager.go:310-316 | RestartBot goes through StopBot exactly if it found the bot running |
| LifecycleProgress.RestartBotRestarts | internal/process/manager.go:302-317 | from every state in which the bot runs, a RestartBot can bring the saved command up as a new incarnation after the old one's status |
| LifecycleProgress.EndedBotRestarts | internal/process/manager.go:302-317 | and so it can when the bot has ended since, however long ago |
| StopAll.Host.StopBot | internal/process/manager.go:269-300 | is one new call and returns what that call came to; nil means the incarnation it stopped is over, its flag set, its status sent; nobody starting bots, nil or "not running" means the bot has no entry |
| StopAll.Host.GetRunningBots | internal/process/manager.go:319-329 | a snapshot of the keys, each once |
| StopAll.Host.StopAll | internal/process/manager.go:342-361 | one new StopBot call for each bot of the snapshot, in order; the error is the first among what these calls came to; it stops early only when the context is done, and never returns nil then; with a live context, working kills and no starts the registry is empty at the end even on error |
| StopAll.FirstErrorIsFirst | internal/process/manager.go:344-360 | an error is reported exactly if some call failed with it and none before it failed |
| Lifecycle.Int32 | internal/process/manager.go:386-386 | the int32 congruent to the code |
| PythonEnv.BuildPythonEnv | internal/process/manager.go:486-524 | distinct keys; reading the items back gives the last-wins base with the nine keys set, each to its own value, PYTHONPATH being the SDK directory before what was there, and nothing else changed |
| PythonEnv.ParseIsLastWins | internal/process/manager.go:488-496 | reading a list of items: the last item for a key counts |
| PythonEnv.SplitPrinted | internal/process/manager.go:489-520 | printing and splitting at the first '=' gives back key and value |
| Prelude.TrimSpec | internal/process/manager.go:499-500 | trimming takes white space off both ends, all of it, and nothing else |

## Where the code is weaker than one might think

* A log record that `SendLog` turns away is saved without a wake-up. If nothing else wakes the sync
  worker it stays unsynced on a healthy connection (`OutboxLimits.StrandedRowWitness`);
  `OutboxLimits.RejectedRecordIsSyncedIff` says exactly when. For accepted records the promise holds
  (`OutboxRuns.QuietMeansSynced`, `OutboxProgress.AcceptedRecordsArrive`).
* A pass that ends in a failed query or a failed mark leaves its rows to the next signal;
  `OutboxLimits.FailedPassRowIsSyncedIff` says exactly when one is coming. The wake-up theorems exclude
  the time between such a pass and the next one (`stalled`).
* `Close` does not reach a connection that is installed after it took the lock
  (`GenerationsRuns.OpenAfterClose`).
* `handleDisconnect` names no connection, so a stale pump may take down a newer connection
  (`SendQueue.StaleReportHitsIff`, `SendQueue.StalePumpWitness`).

## Left out

- Drain.LogSync.SyncUnsyncedLogs: runs alone, because appends and deletes by others during a pass are the business of the Outbox machine; a row that others add meanwhile is not in its contract.
- StopAll.Host.StopAll: the caller is observed for a finite number of turns, because a child that never exits keeps StopBot waiting for ever; a result that is not reached within them is StillRunning.
- Refusals by SendLog: the outbox may refuse a record at any moment, also when a live agent with room in the channel would not; the witnesses use only refusals by a full channel.
- Manager.ConnectionManager.HandleDisconnect: is the uninterrupted call; interleavings are those of the Generations machine.
- WebSocket dialling, the authentication exchange, deadlines, heartbeats' contents and agent ids: a connect attempt succeeds or fails, a socket is open or closed.
- Only the supervisor reconnects after the first connect: a direct call of the exported Reconnect by somebody else is not part of the model.
- JSON: whether a record can be encoded is an arbitrary predicate on it; handleStdoutLine is modelled for exit lines, every other line is one that changes no lifecycle state.
- SQL text, pragmas and the storage and agent_meta tables; a failed statement changes nothing; row ids are unbounded.
- Real time: timers fire at any moment; only the backoff arithmetic is kept. CreatedAt is an arbitrary number.
- What happens to queued records after the context is cancelled: they may stay in the channel; conservation still says where they are, nothing says they are delivered.
- StartBot's validation, credential decryption, file writing and interpreter lookup: one step that succeeds or fails. Kill and Wait on a child that lost the second check succeed.
- Whether "running" is sent before a terminal status of the same incarnation: the code does not promise it.
- StopBot's context cancellation, stdin close and interrupt signal, which only ask the child to exit; children exit whenever they like.
- The dispatcher, flag parsing, build information, cryptography, the Python SDK and the scripts.
