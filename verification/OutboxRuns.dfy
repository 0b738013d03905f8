/** Theorems about every run of the outbox. */
module OutboxRuns {
  import opened Prelude
  import opened Storage
  import opened Outbox
  import opened OutboxIntake
  import opened OutboxDelivery

  /** Every row is the normalized record of the call that made it. */
  ghost predicate TableInv(i: Intake, t: Table) {
    && |i.origins| == t.nextId - 1
    && (forall j :: 0 <= j < |i.origins| ==> i.origins[j].call < |i.calls|)
    && (forall id :: id in t.rows ==>
        1 <= id <= |i.origins| && t.rows[id].rec == Normalized(i.calls[i.origins[id - 1].call].rec))
  }

  /** A wake-up is on its way to the sync worker. */
  predicate WakeupPending(s: State) {
    s.signal || s.owed > 0 || s.intake.persist == PSignalling
  }

  /** The pass in progress will still look at row id, or is about to report the connection dead. */
  ghost predicate PassWillSee(sync: Sync, id: nat) {
    match sync
    case SLooking => true
    case SQuerying => true
    case SDropping(_, _, _) => true
    case SSending(b, _, _) => |b| == BATCH_SIZE || id in IdsOf(b)
    case SWriting(b, _, _) => |b| == BATCH_SIZE || id in IdsOf(b)
    case SIdle => false
    case SAbandoning(_) => false
    case SExited => false
  }

  /** Row id still waits to be synced and came through the log queue. */
  ghost predicate Waiting(s: State, id: nat) {
    && id in s.delivery.table.rows
    && !s.delivery.table.rows[id].synced
    && 1 <= id <= |s.intake.origins|
    && s.intake.origins[id - 1].viaQueue
  }

  ghost predicate WakeInv(s: State) {
    && (s.live ==> s.delivery.sync != SExited && s.intake.persist != PExited)
    && (s.delivery.sync.SAbandoning? && s.connected ==> WakeupPending(s))
    && (s.live && s.connected && !s.stalled && !WakeupPending(s) ==>
          forall id :: Waiting(s, id) ==> PassWillSee(s.delivery.sync, id))
  }

  ghost predicate Inv(encodable: Encodable, s: State) {
    && IntakeInv(s.intake)
    && DeliveryInv(encodable, s.delivery)
    && TableInv(s.intake, s.delivery.table)
    && WakeInv(s)
  }

  lemma IntakeStep(encodable: Encodable, s: State, a: Action)
    requires Enabled(s, a) && IntakeInv(s.intake)
    ensures IntakeInv(Apply(encodable, s, a).intake)
  {
    var i := s.intake;
    match a
    case EmitAccept(rec) => AcceptKeeps(i, rec);
    case EmitReject(rec, _) => RejectKeeps(i, rec);
    case FallbackSave(c, _, ok) =>
      if ok { SaveRejectedKeeps(i, c); } else { LoseRejectedKeeps(i, c); }
    case PersistTake => TakeKeeps(i);
    case PersistSave(_, ok) =>
      if ok { SaveHeldKeeps(i); } else { DropHeldKeeps(i); }
    case PersistSignal => PersistIdleKeeps(i, PIdle);
    case PersistExit => PersistIdleKeeps(i, PExited);
    case Restart => RestartIntakeKeeps(i);
    case _ =>
  }

  lemma DeliveryStep(encodable: Encodable, s: State, a: Action)
    requires Enabled(s, a) && DeliveryInv(encodable, s.delivery)
    ensures DeliveryInv(encodable, Apply(encodable, s, a).delivery)
  {
    if a.SyncTake? || a.SyncLook? || a.SyncExit? || a.SyncQuery? { IdleStep(encodable, s, a); }
    else if a.SyncNext? || a.SyncWrite? || a.SyncDrop? { PassStep(encodable, s, a); }
    else if a.SyncAbandon? || a.SyncMark? { MarkStep(encodable, s, a); }
    else { StoreStep(encodable, s, a); }
  }

  lemma MarkStep(encodable: Encodable, s: State, a: Action)
    requires Enabled(s, a) && DeliveryInv(encodable, s.delivery) && (a.SyncAbandon? || a.SyncMark?)
    ensures DeliveryInv(encodable, Apply(encodable, s, a).delivery)
  {
    MarkHandledKeeps(encodable, s.delivery, a.ok, Apply(encodable, s, a).delivery.sync);
  }

  lemma StoreStep(encodable: Encodable, s: State, a: Action)
    requires Enabled(s, a) && DeliveryInv(encodable, s.delivery) && !SyncAction(a)
    ensures DeliveryInv(encodable, Apply(encodable, s, a).delivery)
  {
    var i, d := s.intake, s.delivery;
    match a
    case FallbackSave(c, now, ok) =>
      if ok { InsertRowKeeps(encodable, d, i.calls[c].rec, now); }
    case PersistSave(now, ok) =>
      if ok { InsertRowKeeps(encodable, d, i.calls[i.persist.call].rec, now); }
    case Delete(botId) => DeleteBotKeeps(encodable, d, botId);
    case Restart => RestartDeliveryKeeps(encodable, d);
    case _ =>
  }

  lemma IdleStep(encodable: Encodable, s: State, a: Action)
    requires Enabled(s, a) && DeliveryInv(encodable, s.delivery)
    requires a.SyncTake? || a.SyncLook? || a.SyncExit? || a.SyncQuery?
    ensures DeliveryInv(encodable, Apply(encodable, s, a).delivery)
  {
    if a.SyncQuery? && a.ok && a.batch != [] {
      QueryKeeps(encodable, s.delivery, a.batch);
    } else {
      IdleMoveKeeps(encodable, s.delivery, Apply(encodable, s, a).delivery.sync);
    }
  }

  lemma PassStep(encodable: Encodable, s: State, a: Action)
    requires Enabled(s, a) && DeliveryInv(encodable, s.delivery)
    requires a.SyncNext? || a.SyncWrite? || a.SyncDrop?
    ensures DeliveryInv(encodable, Apply(encodable, s, a).delivery)
  {
    var d := s.delivery;
    if a.SyncNext? && !encodable(d.sync.batch[d.sync.done].rec) {
      HandleRowKeeps(encodable, d, false);
    } else if a.SyncWrite? && a.ok {
      HandleRowKeeps(encodable, d, true);
    } else {
      PassMoveKeeps(encodable, d, Apply(encodable, s, a).delivery.sync);
    }
  }

  /** Calls keep their records and rows keep theirs. */
  ghost predicate Follows(i: Intake, t: Table, i': Intake, t': Table) {
    && i'.origins == i.origins && t'.nextId == t.nextId
    && |i.calls| <= |i'.calls|
    && (forall c :: 0 <= c < |i.calls| ==> i'.calls[c].rec == i.calls[c].rec)
    && (forall id :: id in t'.rows ==> id in t.rows && t'.rows[id].rec == t.rows[id].rec)
  }

  lemma TableFollows(i: Intake, t: Table, i': Intake, t': Table)
    requires TableInv(i, t) && Follows(i, t, i', t')
    ensures TableInv(i', t')
  {
  }

  /** A new row made by call c. */
  lemma TableInserts(i: Intake, t: Table, i': Intake, c: nat, now: int)
    requires TableInv(i, t) && c < |i.calls| && |i'.calls| == |i.calls|
    requires forall d :: 0 <= d < |i.calls| ==> i'.calls[d].rec == i.calls[d].rec
    requires |i'.origins| == |i.origins| + 1 && i.origins <= i'.origins && i'.origins[|i.origins|].call == c
    ensures TableInv(i', Insert(t, i.calls[c].rec, now))
  {
  }

  lemma TableStep(encodable: Encodable, s: State, a: Action)
    requires Enabled(s, a) && TableInv(s.intake, s.delivery.table)
    ensures var s' := Apply(encodable, s, a); TableInv(s'.intake, s'.delivery.table)
  {
    var s' := Apply(encodable, s, a);
    if (a.FallbackSave? || a.PersistSave?) && a.ok {
      var c := if a.FallbackSave? then a.call else s.intake.persist.call;
      TableInserts(s.intake, s.delivery.table, s'.intake, c, a.now);
    } else {
      StepFollows(encodable, s, a);
      TableFollows(s.intake, s.delivery.table, s'.intake, s'.delivery.table);
    }
  }

  lemma StepFollows(encodable: Encodable, s: State, a: Action)
    requires Enabled(s, a) && !((a.FallbackSave? || a.PersistSave?) && a.ok)
    ensures var s' := Apply(encodable, s, a); Follows(s.intake, s.delivery.table, s'.intake, s'.delivery.table)
  {
    if SyncAction(a) {
      SyncFollows(encodable, s, a);
    } else {
      OtherFollows(encodable, s, a);
    }
  }

  lemma OtherFollows(encodable: Encodable, s: State, a: Action)
    requires Enabled(s, a) && !SyncAction(a) && !((a.FallbackSave? || a.PersistSave?) && a.ok)
    ensures var s' := Apply(encodable, s, a); Follows(s.intake, s.delivery.table, s'.intake, s'.delivery.table)
  {
    if a.Delete? || a.Restart? {
      LossFollows(encodable, s, a);
    } else {
      assert Apply(encodable, s, a).delivery == s.delivery;
    }
  }

  lemma LossFollows(encodable: Encodable, s: State, a: Action)
    requires Enabled(s, a) && (a.Delete? || a.Restart?)
    ensures var s' := Apply(encodable, s, a); Follows(s.intake, s.delivery.table, s'.intake, s'.delivery.table)
  {
  }

  lemma SyncFollows(encodable: Encodable, s: State, a: Action)
    requires Enabled(s, a) && SyncAction(a)
    ensures SameRows(s, Apply(encodable, s, a))
  {
    if a.SyncAbandon? || a.SyncMark? {
      MarkFollows(encodable, s, a);
    } else {
      assert Apply(encodable, s, a).delivery.table == s.delivery.table;
    }
  }

  /** Every row is still there, with its record. */
  ghost predicate SameRows(s: State, s': State) {
    && s'.intake == s.intake && s'.delivery.table.nextId == s.delivery.table.nextId
    && s'.delivery.table.rows.Keys == s.delivery.table.rows.Keys
    && (forall id :: id in s.delivery.table.rows ==> s'.delivery.table.rows[id].rec == s.delivery.table.rows[id].rec)
  }

  lemma MarkFollows(encodable: Encodable, s: State, a: Action)
    requires Enabled(s, a) && (a.SyncAbandon? || a.SyncMark?)
    ensures SameRows(s, Apply(encodable, s, a))
  {
    assert Apply(encodable, s, a).delivery == MarkHandled(s.delivery, a.ok, Apply(encodable, s, a).delivery.sync);
  }

  /** A step that leaves the sync worker where it is keeps WakeInv if it makes no new row that
      nobody was told about. */
  lemma WakeFrame(s: State, s': State)
    requires WakeInv(s) && s'.delivery.sync == s.delivery.sync && s'.stalled == s.stalled
    requires s'.live ==> s.live && (s'.intake.persist == PExited ==> s.intake.persist == PExited)
    requires s'.connected ==> s.connected || WakeupPending(s')
    requires WakeupPending(s) ==> WakeupPending(s')
    requires forall id :: Waiting(s', id) ==> Waiting(s, id) || WakeupPending(s')
    ensures WakeInv(s')
  {
  }

  ghost predicate SyncAction(a: Action) {
    a.SyncTake? || a.SyncLook? || a.SyncQuery? || a.SyncNext? || a.SyncWrite? || a.SyncDrop? || a.SyncAbandon?
      || a.SyncMark? || a.SyncExit?
  }

  lemma WakeStep(encodable: Encodable, s: State, a: Action)
    requires Enabled(s, a) && Inv(encodable, s)
    ensures WakeInv(Apply(encodable, s, a))
  {
    if a.SyncTake? || a.SyncExit? || a.SyncDrop? || a.Restart? { WakePlain(encodable, s, a); }
    else if a.SyncNext? || a.SyncWrite? { WakeInPass(encodable, s, a); }
    else if SyncAction(a) { WakeStore(encodable, s, a); }
    else { WakeOtherStep(encodable, s, a); }
  }

  lemma WakePlain(encodable: Encodable, s: State, a: Action)
    requires Enabled(s, a) && WakeInv(s) && (a.SyncTake? || a.SyncExit? || a.SyncDrop? || a.Restart?)
    ensures WakeInv(Apply(encodable, s, a))
  {
  }

  lemma WakeStore(encodable: Encodable, s: State, a: Action)
    requires Enabled(s, a) && Inv(encodable, s)
    requires a.SyncLook? || a.SyncQuery? || a.SyncMark? || a.SyncAbandon?
    ensures WakeInv(Apply(encodable, s, a))
  {
    match a
    case SyncLook => WakeLook(s);
    case SyncQuery(batch, ok) => if ok { WakeQuery(s, batch); }
    case SyncMark(ok) => WakeMark(s, ok, if |s.delivery.sync.batch| < BATCH_SIZE then SIdle else SLooking);
    case SyncAbandon(ok) => WakeAbandon(s, ok);
  }

  lemma WakeOtherStep(encodable: Encodable, s: State, a: Action)
    requires Enabled(s, a) && WakeInv(s) && TableInv(s.intake, s.delivery.table) && !SyncAction(a) && !a.Restart?
    ensures WakeInv(Apply(encodable, s, a))
  {
    var s' := Apply(encodable, s, a);
    WakeFrame(s, s');
  }

  lemma WakeLook(s: State)
    requires WakeInv(s) && s.delivery.sync == SLooking
    ensures WakeInv(WithSync(s, if s.connected then SQuerying else SIdle))
  {
  }

  lemma WakeQuery(s: State, batch: seq<LogEntry>)
    requires WakeInv(s) && s.delivery.sync == SQuerying && IsFirstUnsynced(batch, s.delivery.table.rows, BATCH_SIZE)
    ensures WakeInv(WithSync(s, if batch == [] then SIdle else SSending(batch, 0, [])))
  {
    forall id | Waiting(s, id)
      ensures batch != [] && (|batch| == BATCH_SIZE || id in IdsOf(batch))
    {
      if |batch| < BATCH_SIZE {
        var k :| 0 <= k < |batch| && batch[k].id == id;
        assert IdsOf(batch)[k] == id;
      }
    }
  }

  lemma WakeInPass(encodable: Encodable, s: State, a: Action)
    requires Enabled(s, a) && WakeInv(s) && (a.SyncNext? || a.SyncWrite?)
    ensures WakeInv(Apply(encodable, s, a))
  {
    var s' := Apply(encodable, s, a);
    assert forall id :: Waiting(s', id) <==> Waiting(s, id);
    assert s'.delivery.sync.SAbandoning? ==> !s.connected;
    assert !s'.delivery.sync.SAbandoning? && !s'.delivery.sync.SDropping? ==>
        Batch(s'.delivery.sync) == Batch(s.delivery.sync);
  }

  lemma WakeMark(s: State, ok: bool, next: Sync)
    requires WakeInv(s) && s.delivery.sync.SSending? && s.delivery.sync.ids == IdsOf(s.delivery.sync.batch)
    requires next == if |s.delivery.sync.batch| < BATCH_SIZE then SIdle else SLooking
    requires |s.delivery.sync.batch| <= BATCH_SIZE && s.delivery.sync.ids != []
    ensures ok ==> WakeInv(s.(delivery := MarkHandled(s.delivery, ok, next)))
    ensures !ok ==> WakeInv(s.(delivery := MarkHandled(s.delivery, ok, SIdle), stalled := true))
  {
    if ok {
      var s' := s.(delivery := MarkHandled(s.delivery, ok, next));
      assert forall id :: Waiting(s', id) ==> Waiting(s, id) && id !in s.delivery.sync.ids;
    }
  }

  lemma WakeAbandon(s: State, ok: bool)
    requires WakeInv(s) && s.delivery.sync.SAbandoning?
    ensures WakeInv(s.(delivery := MarkHandled(s.delivery, ok, SIdle)))
  {
  }

  lemma StepKeeps(encodable: Encodable, s: State, a: Action)
    requires Enabled(s, a) && Inv(encodable, s)
    ensures Inv(encodable, Apply(encodable, s, a))
  {
    IntakeStep(encodable, s, a);
    DeliveryStep(encodable, s, a);
    TableStep(encodable, s, a);
    WakeStep(encodable, s, a);
  }

  lemma {:induction false} RunKeeps(encodable: Encodable, s: State, acts: seq<Action>, t: State)
    requires Inv(encodable, s) && Run(encodable, s, acts, t)
    ensures Inv(encodable, t)
    decreases |acts|
  {
    if acts != [] {
      StepKeeps(encodable, s, acts[0]);
      RunKeeps(encodable, Apply(encodable, s, acts[0]), acts[1..], t);
    }
  }

  ghost predicate Reachable(encodable: Encodable, t: State) {
    exists acts :: Run(encodable, INITIAL, acts, t)
  }

  lemma InitialInv(encodable: Encodable)
    ensures Inv(encodable, INITIAL)
  {
    InitialIntake();
    InitialDelivery(encodable);
  }

  lemma InitialIntake()
    ensures IntakeInv(INITIAL.intake)
  {
    var i := Intake([], PIdle, [], [], [], []);
    assert i.accepted[0..] == OutboxIntake.HandOf(i.persist) + i.logCh;
    assert QueueInv(i) && OriginInv(i) && OrderInv(i);
  }

  lemma InitialDelivery(encodable: Encodable)
    ensures DeliveryInv(encodable, INITIAL.delivery)
  {
    var d := Delivery(EMPTY_TABLE, SIdle, [], [], false);
    assert Batch(d.sync) == [] && Handled(d.sync) == [] && Done(d.sync) == 0;
    assert BatchInv(encodable, d);
    assert WireInv(encodable, d);
    assert HandledInv(encodable, d);
    assert ExactInv(d);
  }

  lemma ReachableInv(encodable: Encodable, t: State)
    requires Reachable(encodable, t)
    ensures Inv(encodable, t)
  {
    var acts :| Run(encodable, INITIAL, acts, t);
    InitialInv(encodable);
    RunKeeps(encodable, INITIAL, acts, t);
  }

  // ---------------------------------------------------------------------------------------------
  // The promises
  // ---------------------------------------------------------------------------------------------

  /** Nobody is about to do anything about unsynced rows. */
  ghost predicate Quiet(s: State) {
    s.delivery.sync == SIdle && !WakeupPending(s)
  }

  /** No lost wake-up: with a live context and a connection, and unless the last pass ended in a store
      error, a row that came through the log queue waits only while somebody is going to see to it. */
  lemma NoLostWakeup(encodable: Encodable, s: State, id: nat)
    requires Reachable(encodable, s) && s.live && s.connected && !s.stalled
    requires Waiting(s, id)
    ensures WakeupPending(s) || PassWillSee(s.delivery.sync, id)
    ensures !Quiet(s)
  {
    ReachableInv(encodable, s);
  }

  /** Once all is quiet the table is fully synced, but for rows that emitLog callers inserted
      themselves; and every encodable row that came through the queue is on the wire. */
  lemma QuietMeansSynced(encodable: Encodable, s: State)
    requires Reachable(encodable, s) && s.live && s.connected && !s.stalled && Quiet(s)
    ensures forall id :: id in s.delivery.table.rows ==>
              1 <= id <= |s.intake.origins| && (s.delivery.table.rows[id].synced || !s.intake.origins[id - 1].viaQueue)
    ensures forall id ::
              (id in s.delivery.table.rows && 1 <= id <= |s.intake.origins| && s.intake.origins[id - 1].viaQueue
               && encodable(s.delivery.table.rows[id].rec)) ==>
                id in s.delivery.wire
  {
    ReachableInv(encodable, s);
    forall id | id in s.delivery.table.rows && !s.delivery.table.rows[id].synced
      ensures !s.intake.origins[id - 1].viaQueue
    {
      assert !Waiting(s, id);
    }
  }

  /** Synced rows are a prefix of the table, under any interleaving of inserts, deletes, partial and
      failed marks and restarts. */
  lemma SyncedRowsAreAPrefix(encodable: Encodable, s: State, i: nat, j: nat)
    requires Reachable(encodable, s)
    requires i in s.delivery.table.rows && j in s.delivery.table.rows && i < j && s.delivery.table.rows[j].synced
    ensures s.delivery.table.rows[i].synced
  {
    ReachableInv(encodable, s);
  }

  /** Wire against table, whatever fails: a synced row was written or cannot be encoded, the rows
      written are downward closed among the encodable rows of the table, and first occurrences are
      in id order. */
  lemma WireAgainstTable(encodable: Encodable, s: State)
    requires Reachable(encodable, s)
    ensures var rows, wire := s.delivery.table.rows, s.delivery.wire;
            && (forall id :: id in rows && rows[id].synced && encodable(rows[id].rec) ==> id in wire)
            && (forall id, w :: id in rows && encodable(rows[id].rec) && w in wire && id < w ==> id in wire)
            && FirstsInOrder(wire)
  {
    ReachableInv(encodable, s);
  }

  /** The wire carries exactly the handled entries that can be encoded, in the order they were handled,
      whatever fails; in particular no row that cannot be encoded is ever on it. While no mark of
      handled rows has failed and the agent has not died in the middle of a batch, rows are handled at
      most once and in id order, and of the rows in the table exactly those marked or about to be. */
  lemma WireIsExact(encodable: Encodable, s: State)
    requires Reachable(encodable, s)
    ensures s.delivery.wire == Sendable(encodable, s.delivery.handled)
    ensures forall e :: e in s.delivery.handled && e.id in s.delivery.table.rows ==>
              s.delivery.table.rows[e.id].rec == e.rec
    ensures forall id :: id in s.delivery.table.rows && id in s.delivery.wire ==>
              encodable(s.delivery.table.rows[id].rec)
    ensures !s.delivery.unmarked ==>
              && Increasing(IdsOf(s.delivery.handled)) && Increasing(s.delivery.wire)
              && (forall id :: id in s.delivery.table.rows ==>
                    (id in IdsOf(s.delivery.handled) <==>
                     s.delivery.table.rows[id].synced || id in Handled(s.delivery.sync)))
  {
    ReachableInv(encodable, s);
    var d := s.delivery;
    SendableIds(encodable, d.handled);
    if !d.unmarked {
      SendableIncreasing(encodable, d.handled);
    }
    forall id | id in d.table.rows && id in d.wire
      ensures encodable(d.table.rows[id].rec)
    {
      var k :| 0 <= k < |d.handled| && d.handled[k].id == id && encodable(d.handled[k].rec);
      assert d.handled[k] in d.handled;
    }
  }

  /** Where the record of emitLog call c is now. */
  datatype Place = InQueue(at: nat) | InHand | InTable(id: nat) | WithCaller | Gone

  function PlaceOf(i: Intake, c: nat): Place
    requires c < |i.calls|
  {
    match i.calls[c].fate
    case Rejected => WithCaller
    case SavedDirectly(id) => InTable(id)
    case Lost => Gone
    case Accepted(k) =>
      if k < |i.outcomes| then (match i.outcomes[k] case Saved(id) => InTable(id) case Dropped => Gone)
      else if i.persist.PHolding? && k == |i.outcomes| then InHand
      else InQueue(if k >= |i.accepted| - |i.logCh| then k - (|i.accepted| - |i.logCh|) else 0)
  }

  /** Record conservation: a record is where PlaceOf says and nowhere else. Each channel slot and each
      row belongs to one call, a row holds its call's record, and nothing else is in the worker's hand. */
  lemma RecordConservation(encodable: Encodable, s: State, c: nat)
    requires Reachable(encodable, s) && c < |s.intake.calls|
    ensures var i := s.intake;
            && (forall at :: 0 <= at < |i.logCh| ==> (i.logCh[at] == c <==> PlaceOf(i, c) == InQueue(at)))
            && (PlaceOf(i, c).InQueue? ==> PlaceOf(i, c).at < |i.logCh|)
            && (i.persist == PHolding(c) <==> PlaceOf(i, c) == InHand)
            && (forall id :: 1 <= id <= |i.origins| ==> (i.origins[id - 1].call == c <==> PlaceOf(i, c) == InTable(id)))
            && (PlaceOf(i, c).InTable? && PlaceOf(i, c).id in s.delivery.table.rows ==>
                  StoredAs(i.calls[c].rec, s.delivery.table.rows[PlaceOf(i, c).id].rec))
  {
    ReachableInv(encodable, s);
    QueuePlaces(s.intake, c);
    RowPlaces(s.intake, c);
    NormalizedIsStored(s.intake.calls[c].rec);
  }

  lemma QueuePlaces(i: Intake, c: nat)
    requires QueueInv(i) && c < |i.calls|
    ensures forall at :: 0 <= at < |i.logCh| ==> (i.logCh[at] == c <==> PlaceOf(i, c) == InQueue(at))
    ensures PlaceOf(i, c).InQueue? ==> PlaceOf(i, c).at < |i.logCh|
    ensures i.persist == PHolding(c) <==> PlaceOf(i, c) == InHand
  {
    ChannelPlaces(i, c);
    HandPlace(i, c);
  }

  lemma ChannelPlaces(i: Intake, c: nat)
    requires QueueInv(i) && c < |i.calls|
    ensures forall at :: 0 <= at < |i.logCh| ==> (i.logCh[at] == c <==> PlaceOf(i, c) == InQueue(at))
    ensures PlaceOf(i, c).InQueue? ==> PlaceOf(i, c).at < |i.logCh|
  {
    QueueSlots(i);
  }

  lemma HandPlace(i: Intake, c: nat)
    requires QueueInv(i) && c < |i.calls|
    ensures i.persist == PHolding(c) <==> PlaceOf(i, c) == InHand
  {
    if i.persist.PHolding? {
      HeldIsNext(i);
    }
  }

  /** The channel holds the last acceptances. */
  lemma QueueSlots(i: Intake)
    requires QueueInv(i)
    ensures |i.accepted| == |i.outcomes| + |i.logCh| + if i.persist.PHolding? then 1 else 0
    ensures forall at :: 0 <= at < |i.logCh| ==> i.logCh[at] == i.accepted[|i.accepted| - |i.logCh| + at]
    ensures forall k :: |i.accepted| - |i.logCh| <= k < |i.accepted| ==>
            i.accepted[k] == i.logCh[k - (|i.accepted| - |i.logCh|)]
  {
    var tail := i.accepted[|i.outcomes|..];
    var held := OutboxIntake.HandOf(i.persist);
    assert tail[|held|..] == i.logCh;
  }

  lemma RowPlaces(i: Intake, c: nat)
    requires QueueInv(i) && OriginInv(i) && c < |i.calls|
    ensures forall id :: 1 <= id <= |i.origins| ==> (i.origins[id - 1].call == c <==> PlaceOf(i, c) == InTable(id))
  {
    forall id | 1 <= id <= |i.origins|
      ensures i.origins[id - 1].call == c <==> PlaceOf(i, c) == InTable(id)
    {
      assert MakerKnows(i, id - 1);
    }
  }

  /** No SaveLog fails, no row is deleted and the agent does not die. */
  ghost predicate Faultless(acts: seq<Action>) {
    forall a :: a in acts ==>
      && (a.FallbackSave? || a.PersistSave? ==> a.ok)
      && !a.Delete? && !a.Restart?
  }

  ghost predicate NothingGone(s: State) {
    && (forall c :: 0 <= c < |s.intake.calls| ==> s.intake.calls[c].fate != Lost)
    && (forall k :: 0 <= k < |s.intake.outcomes| ==> s.intake.outcomes[k].Saved?)
    && (forall id :: 1 <= id < s.delivery.table.nextId ==> id in s.delivery.table.rows)
  }

  lemma NothingGoneStep(encodable: Encodable, s: State, a: Action)
    requires Enabled(s, a) && NothingGone(s) && Faultless([a]) && 1 <= s.delivery.table.nextId
    ensures NothingGone(Apply(encodable, s, a)) && 1 <= Apply(encodable, s, a).delivery.table.nextId
  {
    assert a in [a];
    if SyncAction(a) {
      SyncFollows(encodable, s, a);
    } else {
      NothingGoneOther(encodable, s, a);
    }
  }

  lemma NothingGoneOther(encodable: Encodable, s: State, a: Action)
    requires Enabled(s, a) && NothingGone(s) && !SyncAction(a) && 1 <= s.delivery.table.nextId
    requires (a.FallbackSave? || a.PersistSave? ==> a.ok) && !a.Delete? && !a.Restart?
    ensures NothingGone(Apply(encodable, s, a)) && 1 <= Apply(encodable, s, a).delivery.table.nextId
  {
  }

  lemma {:induction false} NothingGoneRun(encodable: Encodable, s: State, acts: seq<Action>, t: State)
    requires Run(encodable, s, acts, t) && NothingGone(s) && Faultless(acts) && 1 <= s.delivery.table.nextId
    ensures NothingGone(t)
    decreases |acts|
  {
    if acts != [] {
      assert acts[0] in acts;
      NothingGoneStep(encodable, s, acts[0]);
      NothingGoneRun(encodable, Apply(encodable, s, acts[0]), acts[1..], t);
    }
  }

  /** In a faultless run the record of a completed emitLog call is in the queue, in the worker's hand or
      in the table (by RecordConservation, in one of these places only). */
  lemma FaultlessRecordIsKept(encodable: Encodable, acts: seq<Action>, s: State, c: nat)
    requires Run(encodable, INITIAL, acts, s) && Faultless(acts) && c < |s.intake.calls|
    ensures PlaceOf(s.intake, c) != Gone
    ensures PlaceOf(s.intake, c).InTable? ==> PlaceOf(s.intake, c).id in s.delivery.table.rows
    ensures PlaceOf(s.intake, c) == WithCaller <==> s.intake.calls[c].fate == Rejected
  {
    NothingGoneRun(encodable, INITIAL, acts, s);
    InitialInv(encodable);
    RunKeeps(encodable, INITIAL, acts, s);
    KeptPlace(s, c);
  }

  lemma KeptPlace(s: State, c: nat)
    requires NothingGone(s) && QueueInv(s.intake) && OriginInv(s.intake) && TableInv(s.intake, s.delivery.table)
             && c < |s.intake.calls|
    ensures PlaceOf(s.intake, c) != Gone
    ensures PlaceOf(s.intake, c).InTable? ==> PlaceOf(s.intake, c).id in s.delivery.table.rows
    ensures PlaceOf(s.intake, c) == WithCaller <==> s.intake.calls[c].fate == Rejected
  {
    var fate := s.intake.calls[c].fate;
    if fate.SavedDirectly? {
      assert MadeBy(s.intake, fate.id, c, false);
    } else if fate.Accepted? && fate.number < |s.intake.outcomes| {
      assert MadeBy(s.intake, s.intake.outcomes[fate.number].id, s.intake.accepted[fate.number], true);
    }
  }

  /** Rows made through the queue are in acceptance order. */
  lemma QueueRowsInAcceptanceOrder(encodable: Encodable, s: State, k: nat, k': nat)
    requires Reachable(encodable, s) && k < k' < |s.intake.outcomes|
    requires s.intake.outcomes[k].Saved? && s.intake.outcomes[k'].Saved?
    ensures s.intake.outcomes[k].id < s.intake.outcomes[k'].id
  {
    ReachableInv(encodable, s);
  }

  /** A row inserted by an emitLog caller has overtaken only acceptance numbers in a window of at most
      257: everything accepted before it and disposed of after it, a full channel plus one in hand. */
  lemma FallbackOvertakesAtMost257(encodable: Encodable, s: State, id: nat, k: nat)
    requires Reachable(encodable, s) && 1 <= id <= |s.intake.origins|
    requires k < |s.intake.outcomes| && s.intake.outcomes[k].Saved? && s.intake.outcomes[k].id > id
    requires k < s.intake.origins[id - 1].acceptedBefore
    ensures s.intake.origins[id - 1].disposedBefore <= k < s.intake.origins[id - 1].disposedBefore + 257
  {
    ReachableInv(encodable, s);
  }

  // ---------------------------------------------------------------------------------------------
  // Joining runs
  // ---------------------------------------------------------------------------------------------

  lemma {:induction false} RunsJoin(encodable: Encodable, s: State, a: seq<Action>, t: State, b: seq<Action>, u: State)
    requires Run(encodable, s, a, t) && Run(encodable, t, b, u)
    ensures Run(encodable, s, a + b, u)
    decreases |a|
  {
    if a == [] {
      assert a + b == b;
    } else {
      RunsJoin(encodable, Apply(encodable, s, a[0]), a[1..], t, b, u);
      assert (a + b)[1..] == a[1..] + b;
    }
  }

  lemma RunExtends(encodable: Encodable, s: State, acts: seq<Action>, t: State, a: Action)
    requires Run(encodable, s, acts, t) && Enabled(t, a)
    ensures Run(encodable, s, acts + [a], Apply(encodable, t, a))
  {
    assert Run(encodable, Apply(encodable, t, a), [], Apply(encodable, t, a));
    assert [a][1..] == [];
    RunsJoin(encodable, s, acts, t, [a], Apply(encodable, t, a));
  }

  lemma ReachableStep(encodable: Encodable, s: State, a: Action)
    requires Reachable(encodable, s) && Enabled(s, a)
    ensures Reachable(encodable, Apply(encodable, s, a))
  {
    var acts :| Run(encodable, INITIAL, acts, s);
    RunExtends(encodable, INITIAL, acts, s, a);
  }
}
