/** The durable log outbox as a state machine: emitLog callers, the log channel, logPersistLoop,
    the one-slot wake-up channel, logSyncLoop with syncUnsyncedLogs, and a connection that comes and
    goes, all interleaved one atomic step at a time. */
module Outbox {
  import opened Storage
  import Drain

  const LOG_BUFFER_SIZE := 256
  const BATCH_SIZE := Drain.BATCH_SIZE

  type Encodable = LogRecord -> bool

  // ---------------------------------------------------------------------------------------------
  // Intake: emitLog callers, the log channel and the persist worker
  // ---------------------------------------------------------------------------------------------

  /** What became of one emitLog call's record. A record accepted by SendLog has an acceptance number;
      `outcomes` tells the rest of its story. A rejected one is saved by the caller itself. */
  datatype Fate = Accepted(number: nat) | Rejected | SavedDirectly(id: nat) | Lost

  datatype Call = Call(rec: LogRecord, fate: Fate)

  /** How the persist worker disposed of an accepted record. */
  datatype Disposal = Saved(id: nat) | Dropped

  /** Which call made a row, by which way, and how many records had been accepted and disposed of
      when the row was inserted. */
  datatype Origin = Origin(call: nat, viaQueue: bool, acceptedBefore: nat, disposedBefore: nat)

  datatype Persist = PIdle | PHolding(call: nat) | PSignalling | PExited

  /** Calls are numbered; the channel and the worker's hand hold call numbers. The last three fields
      are history: they record what happened and decide nothing. */
  datatype Intake = Intake(
    logCh: seq<nat>,
    persist: Persist,
    calls: seq<Call>,
    accepted: seq<nat>,       // calls in the order SendLog accepted them
    outcomes: seq<Disposal>,  // by acceptance number
    origins: seq<Origin>      // by row id, starting at 1
  )

  function Accept(i: Intake, rec: LogRecord): Intake {
    i.(calls := i.calls + [Call(rec, Accepted(|i.accepted|))],
       accepted := i.accepted + [|i.calls|],
       logCh := i.logCh + [|i.calls|])
  }

  function Reject(i: Intake, rec: LogRecord): Intake {
    i.(calls := i.calls + [Call(rec, Rejected)])
  }

  /** The caller's own SaveLog succeeded; the row gets the next id. */
  function SaveRejected(i: Intake, c: nat): Intake
    requires c < |i.calls|
  {
    i.(calls := i.calls[c := i.calls[c].(fate := SavedDirectly(|i.origins| + 1))],
       origins := i.origins + [Origin(c, false, |i.accepted|, |i.outcomes|)])
  }

  function LoseRejected(i: Intake, c: nat): Intake
    requires c < |i.calls|
  {
    i.(calls := i.calls[c := i.calls[c].(fate := Lost)])
  }

  function Take(i: Intake): Intake
    requires i.logCh != []
  {
    i.(logCh := i.logCh[1..], persist := PHolding(i.logCh[0]))
  }

  function SaveHeld(i: Intake): Intake
    requires i.persist.PHolding?
  {
    i.(persist := PSignalling,
       outcomes := i.outcomes + [Saved(|i.origins| + 1)],
       origins := i.origins + [Origin(i.persist.call, true, |i.accepted|, |i.outcomes|)])
  }

  function DropHeld(i: Intake): Intake {
    i.(persist := PIdle, outcomes := i.outcomes + [Dropped])
  }

  /** The agent dies: what was in memory only is gone. */
  function RestartIntake(i: Intake): Intake {
    Intake([], PIdle,
           seq(|i.calls|, c requires 0 <= c < |i.calls| =>
             if i.calls[c].fate == Rejected then i.calls[c].(fate := Lost) else i.calls[c]),
           i.accepted,
           i.outcomes + seq(if |i.accepted| >= |i.outcomes| then |i.accepted| - |i.outcomes| else 0, _ => Dropped),
           i.origins)
  }

  // ---------------------------------------------------------------------------------------------
  // Delivery: the table, the sync worker and the wire
  // ---------------------------------------------------------------------------------------------

  datatype Sync =
    | SIdle
    | SLooking                                                          // top of the loop: isConnected
    | SQuerying                                                         // GetUnsyncedLogs
    | SSending(batch: seq<LogEntry>, done: nat, ids: seq<nat>)          // next entry, or mark when done
    | SWriting(batch: seq<LogEntry>, done: nat, ids: seq<nat>)          // writeDirect saw a connection
    | SDropping(batch: seq<LogEntry>, done: nat, ids: seq<nat>)         // write failed: handleDisconnect
    | SAbandoning(ids: seq<nat>)                                        // mark the partial batch, return the error
    | SExited

  /** wire, handled and unmarked are history. */
  datatype Delivery = Delivery(
    table: Table,
    sync: Sync,
    wire: seq<nat>,           // ids of the rows written successfully, oldest first
    handled: seq<LogEntry>,   // entries sent or skipped, oldest first
    unmarked: bool            // rows were handled without being marked: a mark failed or the agent died
  )

  /** syncedIDs, while a pass holds any. */
  function Handled(sync: Sync): seq<nat> {
    match sync
    case SSending(_, _, ids) => ids
    case SWriting(_, _, ids) => ids
    case SDropping(_, _, ids) => ids
    case SAbandoning(ids) => ids
    case _ => []
  }

  function Batch(sync: Sync): seq<LogEntry> {
    match sync
    case SSending(batch, _, _) => batch
    case SWriting(batch, _, _) => batch
    case SDropping(batch, _, _) => batch
    case _ => []
  }

  function Done(sync: Sync): nat {
    match sync
    case SSending(_, done, _) => done
    case SWriting(_, done, _) => done
    case SDropping(_, done, _) => done
    case _ => 0
  }

  function InsertRow(d: Delivery, rec: LogRecord, now: int): Delivery {
    d.(table := Insert(d.table, rec, now))
  }

  function DeleteBot(d: Delivery, botId: string): Delivery {
    d.(table := d.table.(rows := DeleteRows(d.table.rows, botId)))
  }

  /** The entry at hand is done with: its id joins syncedIDs. */
  function HandleRow(d: Delivery, sent: bool): Delivery
    requires Done(d.sync) < |Batch(d.sync)|
  {
    var b, k := Batch(d.sync), Done(d.sync);
    d.(sync := SSending(b, k + 1, Handled(d.sync) + [b[k].id]),
       wire := if sent then d.wire + [b[k].id] else d.wire,
       handled := d.handled + [b[k]])
  }

  /** MarkLogsSynced(syncedIDs), then on to `next`. With no ids there is no statement to fail. */
  function MarkHandled(d: Delivery, ok: bool, next: Sync): Delivery {
    var ids := Handled(d.sync);
    if ids == [] || ok then
      d.(table := d.table.(rows := MarkRows(d.table.rows, IdSet(ids))), sync := next)
    else
      d.(sync := next, unmarked := true)
  }

  function RestartDelivery(d: Delivery): Delivery {
    d.(sync := SIdle, unmarked := d.unmarked || Handled(d.sync) != [])
  }

  // ---------------------------------------------------------------------------------------------
  // The whole machine
  // ---------------------------------------------------------------------------------------------

  datatype State = State(
    live: bool,               // the manager's context is not cancelled
    connected: bool,          // m.connected && m.conn != nil
    owed: nat,                // connects that have installed a connection but not signalled yet
    signal: bool,             // logSyncCh holds its token
    stalled: bool,            // history: the last sync pass ended in a store error
    intake: Intake,
    delivery: Delivery
  )

  const INITIAL := State(true, false, 0, false, false, Intake([], PIdle, [], [], [], []),
                         Delivery(EMPTY_TABLE, SIdle, [], [], false))

  datatype Action =
    | EmitAccept(rec: LogRecord)
    | EmitReject(rec: LogRecord, refused: bool)   // refused: data not marshallable, no context yet, or closed
    | FallbackSave(call: nat, now: int, ok: bool)
    | PersistTake
    | PersistSave(now: int, ok: bool)
    | PersistSignal
    | PersistExit
    | SyncTake
    | SyncLook
    | SyncQuery(batch: seq<LogEntry>, ok: bool)
    | SyncNext
    | SyncWrite(ok: bool)
    | SyncDrop
    | SyncAbandon(ok: bool)
    | SyncMark(ok: bool)
    | SyncExit
    | Connect
    | Announce       // connectOnce's signalLogSync
    | Nudge          // Connect's own signalLogSync
    | Disconnect     // handleDisconnect by anyone else
    | Cancel
    | Delete(botId: string)
    | Restart        // the agent stops or dies and a new one opens the same database

  ghost predicate Enabled(s: State, a: Action) {
    var i, sync := s.intake, s.delivery.sync;
    match a
    case EmitAccept(_) => |i.logCh| < LOG_BUFFER_SIZE
    case EmitReject(_, refused) => refused || !s.live || |i.logCh| == LOG_BUFFER_SIZE
    case FallbackSave(c, _, _) => c < |i.calls| && i.calls[c].fate == Rejected
    case PersistTake => i.persist == PIdle && i.logCh != []
    case PersistSave(_, _) => i.persist.PHolding? && i.persist.call < |i.calls|
    case PersistSignal => i.persist == PSignalling
    case PersistExit => i.persist == PIdle && !s.live
    case SyncTake => sync == SIdle && s.signal
    case SyncLook => sync == SLooking
    case SyncQuery(batch, ok) => sync == SQuerying && (ok ==> IsFirstUnsynced(batch, s.delivery.table.rows, BATCH_SIZE))
    case SyncNext => sync.SSending? && sync.done < |sync.batch|
    case SyncWrite(_) => sync.SWriting? && sync.done < |sync.batch|
    case SyncDrop => sync.SDropping?
    case SyncAbandon(_) => sync.SAbandoning?
    case SyncMark(_) => sync.SSending? && sync.done >= |sync.batch|
    case SyncExit => sync == SIdle && !s.live
    case Announce => s.owed > 0
    case Connect | Nudge | Disconnect | Cancel | Delete(_) | Restart => true
  }

  function WithSync(s: State, sync: Sync): State {
    s.(delivery := s.delivery.(sync := sync))
  }

  ghost function Apply(encodable: Encodable, s: State, a: Action): State
    requires Enabled(s, a)
  {
    var i, d := s.intake, s.delivery;
    match a
    case EmitAccept(rec) => s.(intake := Accept(i, rec))
    case EmitReject(rec, _) => s.(intake := Reject(i, rec))
    case FallbackSave(c, now, ok) =>
      if ok then s.(intake := SaveRejected(i, c), delivery := InsertRow(d, i.calls[c].rec, now))
      else s.(intake := LoseRejected(i, c))
    case PersistTake => s.(intake := Take(i))
    case PersistSave(now, ok) =>
      if ok then s.(intake := SaveHeld(i), delivery := InsertRow(d, i.calls[i.persist.call].rec, now))
      else s.(intake := DropHeld(i))
    case PersistSignal => s.(intake := i.(persist := PIdle), signal := true)
    case PersistExit => s.(intake := i.(persist := PExited))
    case SyncTake => WithSync(s, SLooking).(signal := false, stalled := false)
    case SyncLook => WithSync(s, if s.connected then SQuerying else SIdle)
    case SyncQuery(batch, ok) =>
      if !ok then WithSync(s, SIdle).(stalled := true)
      else WithSync(s, if batch == [] then SIdle else SSending(batch, 0, []))
    case SyncNext =>
      if !encodable(d.sync.batch[d.sync.done].rec) then s.(delivery := HandleRow(d, false))
      else WithSync(s, if s.connected then SWriting(d.sync.batch, d.sync.done, d.sync.ids) else SAbandoning(d.sync.ids))
    case SyncWrite(ok) =>
      if ok then s.(delivery := HandleRow(d, true))
      else WithSync(s, SDropping(d.sync.batch, d.sync.done, d.sync.ids))
    case SyncDrop => WithSync(s, SAbandoning(d.sync.ids)).(connected := false)
    case SyncAbandon(ok) => s.(delivery := MarkHandled(d, ok, SIdle))
    case SyncMark(ok) =>
      if d.sync.ids != [] && !ok then s.(delivery := MarkHandled(d, ok, SIdle), stalled := true)
      else s.(delivery := MarkHandled(d, ok, if |d.sync.batch| < BATCH_SIZE then SIdle else SLooking))
    case SyncExit => WithSync(s, SExited)
    case Connect => s.(connected := true, owed := s.owed + 1)
    case Announce => s.(owed := s.owed - 1, signal := true)
    case Nudge => s.(signal := true)
    case Disconnect => s.(connected := false)
    case Cancel => s.(live := false)
    case Delete(botId) => s.(delivery := DeleteBot(d, botId))
    case Restart => State(true, false, 0, false, false, RestartIntake(i), RestartDelivery(d))
  }

  /** acts takes s to t, one enabled step at a time. */
  ghost predicate Run(encodable: Encodable, s: State, acts: seq<Action>, t: State)
    decreases |acts|
  {
    if acts == [] then s == t
    else Enabled(s, acts[0]) && Run(encodable, Apply(encodable, s, acts[0]), acts[1..], t)
  }
}
