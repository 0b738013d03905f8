/** The outbox gets there: left to its own workers, on a connection that holds and a store that works,
    it can take only so many steps, and when it has no more to take every record accepted so far is
    in the table, marked, and on the wire if it can be encoded. */
module OutboxProgress {
  import opened Storage
  import opened Outbox
  import opened OutboxIntake
  import opened OutboxDelivery
  import opened OutboxRuns

  /** A fault-free step of the persist worker or the sync worker, or an announcement still owed. */
  ghost predicate Tidy(a: Action) {
    || a.PersistTake? || (a.PersistSave? && a.ok) || a.PersistSignal? || a.Announce?
    || a.SyncTake? || a.SyncLook? || (a.SyncQuery? && a.ok) || a.SyncNext?
    || a == SyncWrite(true) || a == SyncAbandon(true) || a == SyncMark(true)
  }

  ghost predicate AllTidy(acts: seq<Action>) {
    forall a :: a in acts ==> Tidy(a)
  }

  /** Connected, with no failed write to be reported. */
  predicate Fine(s: State) {
    s.live && s.connected && !s.delivery.sync.SDropping?
  }

  /** The workers have nothing left to do. */
  ghost predicate Settled(s: State) {
    Quiet(s) && s.intake.logCh == [] && !s.intake.persist.PHolding?
  }

  // ---------------------------------------------------------------------------------------------
  // How much work is left
  // ---------------------------------------------------------------------------------------------

  function UnsyncedIds(rows: map<nat, LogEntry>): set<nat> {
    set id | id in rows && !rows[id].synced
  }

  function InWorkersHand(i: Intake): nat {
    if i.persist.PHolding? then 1 else 0
  }

  /** Records to be synced that are not in the batch at hand. */
  function Ahead(s: State): nat {
    |UnsyncedIds(s.delivery.table.rows) - IdSet(IdsOf(Batch(s.delivery.sync)))| + |s.intake.logCh|
      + InWorkersHand(s.intake)
  }

  /** Bound on the steps of a pass from its start, with v records to be synced. */
  function PassCost(v: nat): nat {
    4 * v + 4
  }

  /** Bound on the steps left in the pass in progress, with v records not in its batch. */
  function PassRank(sync: Sync, v: nat): nat {
    match sync
    case SLooking => PassCost(v)
    case SQuerying => PassCost(v) - 1
    case SSending(b, done, _) => BatchRank(b, done) + 1 + Again(b, v)
    case SWriting(b, done, _) => BatchRank(b, done) + Again(b, v)
    case SAbandoning(_) => 1
    case _ => 0
  }

  function BatchRank(b: seq<LogEntry>, done: nat): nat {
    if done <= |b| then 2 * (|b| - done) else 0
  }

  /** A full batch is followed by another look. */
  function Again(b: seq<LogEntry>, v: nat): nat {
    if |b| < BATCH_SIZE then 0 else PassCost(v)
  }

  /** Wake-ups still to come: a queued record goes through the worker's hand and an owed signal before it
      becomes the token. */
  function Wakeups(s: State): nat {
    4 * |s.intake.logCh| + 3 * InWorkersHand(s.intake)
    + 2 * (s.owed + if s.intake.persist == PSignalling then 1 else 0)
    + if s.signal then 1 else 0
  }

  function Work(s: State): nat {
    PassRank(s.delivery.sync, Ahead(s)) + (PassCost(Ahead(s)) + 1) * Wakeups(s)
  }

  /** A wake-up is used up, or the pass moves on. */
  ghost predicate Lighter(s: State, s': State) {
    var v, v' := Ahead(s), Ahead(s');
    var r, r' := PassRank(s.delivery.sync, v), PassRank(s'.delivery.sync, v');
    && v' <= v
    && ((Wakeups(s') == Wakeups(s) && r' < r) || (Wakeups(s') < Wakeups(s) && r' <= r + PassCost(v)))
  }

  lemma LighterIsLess(s: State, s': State)
    requires Lighter(s, s')
    ensures Work(s') < Work(s)
  {
    var v, v', w, w' := Ahead(s), Ahead(s'), Wakeups(s), Wakeups(s');
    Product(PassCost(v') + 1, PassCost(v) + 1, w', w);
  }

  lemma Product(c': nat, c: nat, w': nat, w: nat)
    requires c' <= c && w' <= w
    ensures c' * w' <= c * w' && c * w == c * w' + c * (w - w')
    ensures w' < w ==> c <= c * (w - w')
  {
    assert c * w' == c' * w' + (c - c') * w';
    NotNegative(c - c', w');
    assert w == w' + (w - w');
    if w' < w {
      assert c * (w - w') == c + c * (w - w' - 1);
      NotNegative(c, w - w' - 1);
    }
  }

  lemma NotNegative(a: nat, b: nat)
    ensures 0 <= a * b
  {
  }

  // ---------------------------------------------------------------------------------------------
  // Every tidy step makes it less
  // ---------------------------------------------------------------------------------------------

  lemma TidyIsLighter(encodable: Encodable, s: State, a: Action)
    requires Inv(encodable, s) && Fine(s) && Enabled(s, a) && Tidy(a)
    ensures Lighter(s, Apply(encodable, s, a)) && Fine(Apply(encodable, s, a))
  {
    match a
    case PersistTake | PersistSignal | Announce => SignalsLighter(encodable, s, a);
    case PersistSave(_, _) => SaveLighter(encodable, s, a);
    case SyncTake | SyncLook => LookLighter(encodable, s, a);
    case SyncQuery(_, _) => QueryLighter(encodable, s, a);
    case SyncNext | SyncWrite(_) => RowLighter(encodable, s, a);
    case SyncAbandon(_) | SyncMark(_) => MarkLighter(encodable, s, a);
  }

  lemma SignalsLighter(encodable: Encodable, s: State, a: Action)
    requires Fine(s) && Enabled(s, a) && (a.PersistTake? || a.PersistSignal? || a.Announce?)
    ensures Lighter(s, Apply(encodable, s, a)) && Fine(Apply(encodable, s, a))
  {
    var s' := Apply(encodable, s, a);
    assert s'.delivery == s.delivery;
    assert Ahead(s') == Ahead(s);
    assert Wakeups(s') < Wakeups(s);
  }

  lemma SaveLighter(encodable: Encodable, s: State, a: Action)
    requires Inv(encodable, s) && Fine(s) && Enabled(s, a) && a.PersistSave? && a.ok
    ensures Lighter(s, Apply(encodable, s, a)) && Fine(Apply(encodable, s, a))
  {
    var t, b := s.delivery.table, Batch(s.delivery.sync);
    forall k | 0 <= k < |b|
      ensures IdsOf(b)[k] != t.nextId
    {
      assert b[k].id < t.nextId;
    }
    InsertedIds(t, s.intake.calls[s.intake.persist.call].rec, a.now, IdSet(IdsOf(b)));
    var s' := Apply(encodable, s, a);
    assert s'.delivery.sync == s.delivery.sync;
    assert Ahead(s') == Ahead(s);
    assert Wakeups(s') < Wakeups(s);
  }

  lemma InsertedIds(t: Table, rec: LogRecord, now: int, others: set<nat>)
    requires WellFormed(t) && t.nextId !in others
    ensures |UnsyncedIds(Insert(t, rec, now).rows) - others| == |UnsyncedIds(t.rows) - others| + 1
  {
    assert UnsyncedIds(Insert(t, rec, now).rows) - others == (UnsyncedIds(t.rows) - others) + {t.nextId};
  }

  lemma LookLighter(encodable: Encodable, s: State, a: Action)
    requires Fine(s) && Enabled(s, a) && (a.SyncTake? || a.SyncLook?)
    ensures Lighter(s, Apply(encodable, s, a)) && Fine(Apply(encodable, s, a))
  {
  }

  lemma QueryLighter(encodable: Encodable, s: State, a: Action)
    requires Fine(s) && Enabled(s, a) && a.SyncQuery? && a.ok
    ensures Lighter(s, Apply(encodable, s, a)) && Fine(Apply(encodable, s, a))
  {
    BatchIds(s.delivery.table.rows, a.batch);
    QueryRank(a.batch, Ahead(Apply(encodable, s, a)));
  }

  lemma QueryRank(batch: seq<LogEntry>, v: nat)
    requires |batch| <= BATCH_SIZE
    ensures PassRank(if batch == [] then SIdle else SSending(batch, 0, []), v) < PassRank(SQuerying, v + |batch|)
  {
  }

  /** A batch takes its own length out of the unsynced rows. */
  lemma BatchIds(rows: map<nat, LogEntry>, batch: seq<LogEntry>)
    requires IsFirstUnsynced(batch, rows, BATCH_SIZE)
    ensures |UnsyncedIds(rows) - IdSet(IdsOf(batch))| + |batch| == |UnsyncedIds(rows) - IdSet(IdsOf([]))|
  {
    var ids := IdSet(IdsOf(batch));
    DistinctIds(batch);
    forall id | id in ids
      ensures id in UnsyncedIds(rows)
    {
      var k :| 0 <= k < |batch| && IdsOf(batch)[k] == id;
      assert batch[k].id == id;
    }
    assert UnsyncedIds(rows) == (UnsyncedIds(rows) - ids) + ids;
    assert UnsyncedIds(rows) - IdSet(IdsOf([])) == UnsyncedIds(rows);
  }

  lemma {:induction false} DistinctIds(batch: seq<LogEntry>)
    requires SortedById(batch)
    ensures |IdSet(IdsOf(batch))| == |batch|
  {
    if batch != [] {
      var n := |batch| - 1;
      DistinctIds(batch[..n]);
      assert IdsOf(batch) == IdsOf(batch[..n]) + [batch[n].id];
      assert IdSet(IdsOf(batch)) == IdSet(IdsOf(batch[..n])) + {batch[n].id};
      assert forall k :: 0 <= k < n ==> IdsOf(batch[..n])[k] == batch[k].id < batch[n].id;
    } else {
      assert IdSet(IdsOf(batch)) == {};
    }
  }

  lemma RowLighter(encodable: Encodable, s: State, a: Action)
    requires Fine(s) && Enabled(s, a) && (a.SyncNext? || a == SyncWrite(true))
    ensures Lighter(s, Apply(encodable, s, a)) && Fine(Apply(encodable, s, a))
  {
    var s' := Apply(encodable, s, a);
    RowMoves(encodable, s, a);
    assert Wakeups(s') == Wakeups(s) && Ahead(s') == Ahead(s);
    MovedOnRank(s.delivery.sync, s'.delivery.sync, Ahead(s));
  }

  /** The pass is one program point or one row further in the same batch. */
  ghost predicate MovedOn(sync: Sync, sync': Sync) {
    && HoldsBatch(sync) && sync.done < |sync.batch| && !sync.SDropping?
    && ((sync'.SSending? && sync'.batch == sync.batch && sync'.done == sync.done + 1)
        || (sync.SSending? && sync'.SWriting? && sync'.batch == sync.batch && sync'.done == sync.done))
  }

  lemma RowMoves(encodable: Encodable, s: State, a: Action)
    requires Fine(s) && Enabled(s, a) && (a.SyncNext? || a == SyncWrite(true))
    ensures var s' := Apply(encodable, s, a);
            && MovedOn(s.delivery.sync, s'.delivery.sync) && s'.delivery.table == s.delivery.table
            && s'.intake == s.intake && s'.owed == s.owed && s'.signal == s.signal && Fine(s')
  {
  }

  lemma MovedOnRank(sync: Sync, sync': Sync, v: nat)
    requires MovedOn(sync, sync')
    ensures PassRank(sync', v) < PassRank(sync, v)
  {
  }

  lemma MarkLighter(encodable: Encodable, s: State, a: Action)
    requires Inv(encodable, s) && Fine(s) && Enabled(s, a) && (a == SyncAbandon(true) || a == SyncMark(true))
    ensures Lighter(s, Apply(encodable, s, a)) && Fine(Apply(encodable, s, a))
  {
    MarkMoves(encodable, s, a);
    if a.SyncMark? {
      assert IdsOf(s.delivery.sync.batch)[..s.delivery.sync.done] == IdsOf(s.delivery.sync.batch);
    }
    MarkShrinks(s, Apply(encodable, s, a));
  }

  lemma MarkShrinks(s: State, s': State)
    requires s.delivery.sync.SAbandoning?
             || (s.delivery.sync.SSending? && s.delivery.sync.ids == IdsOf(s.delivery.sync.batch))
    requires s'.delivery.table.rows == MarkRows(s.delivery.table.rows, IdSet(Handled(s.delivery.sync)))
    requires s'.delivery.sync == if s.delivery.sync.SSending? && |Batch(s.delivery.sync)| >= BATCH_SIZE then SLooking
             else SIdle
    requires s'.intake == s.intake && s'.owed == s.owed && s'.signal == s.signal
    ensures Lighter(s, s')
  {
    var rows := s.delivery.table.rows;
    MarkedAreGone(rows, Handled(s.delivery.sync));
    if s.delivery.sync.SAbandoning? {
      Fewer(UnsyncedIds(s'.delivery.table.rows) - IdSet(IdsOf([])), UnsyncedIds(rows) - IdSet(IdsOf([])));
    }
    assert Wakeups(s') == Wakeups(s) && Ahead(s') <= Ahead(s);
  }

  lemma MarkMoves(encodable: Encodable, s: State, a: Action)
    requires Fine(s) && Enabled(s, a) && (a == SyncAbandon(true) || a == SyncMark(true))
    ensures var s' := Apply(encodable, s, a);
            && s'.delivery.table.rows == MarkRows(s.delivery.table.rows, IdSet(Handled(s.delivery.sync)))
            && s'.delivery.sync == (if a.SyncMark? && |Batch(s.delivery.sync)| >= BATCH_SIZE then SLooking else SIdle)
            && s'.intake == s.intake && s'.owed == s.owed && s'.signal == s.signal && Fine(s')
  {
  }

  lemma MarkedAreGone(rows: map<nat, LogEntry>, ids: seq<nat>)
    ensures UnsyncedIds(MarkRows(rows, IdSet(ids))) - IdSet(IdsOf([])) == UnsyncedIds(rows) - IdSet(ids)
  {
  }

  lemma Fewer(a: set<nat>, b: set<nat>)
    requires a <= b
    ensures |a| <= |b|
  {
    assert b == a + (b - a);
  }

  // ---------------------------------------------------------------------------------------------
  // The promises
  // ---------------------------------------------------------------------------------------------

  /** Convergence: whatever the schedule, a run of tidy steps is no longer than the work there was at
      its start. */
  lemma {:induction false} TidyRunsEnd(encodable: Encodable, s: State, acts: seq<Action>, t: State)
    requires Inv(encodable, s) && Fine(s) && Run(encodable, s, acts, t) && AllTidy(acts)
    ensures Inv(encodable, t) && Fine(t) && |acts| + Work(t) <= Work(s)
    decreases |acts|
  {
    if acts != [] {
      assert acts[0] in acts;
      var u := Apply(encodable, s, acts[0]);
      StepKeeps(encodable, s, acts[0]);
      TidyIsLighter(encodable, s, acts[0]);
      LighterIsLess(s, u);
      TidyRunsEnd(encodable, u, acts[1..], t);
    }
  }

  /** No deadlock: until all is settled, a tidy step is possible. */
  lemma TidyStepPossible(encodable: Encodable, s: State) returns (a: Action)
    requires Inv(encodable, s) && Fine(s) && !Settled(s)
    ensures Enabled(s, a) && Tidy(a)
  {
    if s.intake.persist.PHolding? {
      HeldIsNext(s.intake);
      a := PersistSave(0, true);
    } else if s.intake.persist == PSignalling {
      a := PersistSignal;
    } else if s.intake.logCh != [] {
      a := PersistTake;
    } else if s.owed > 0 {
      a := Announce;
    } else {
      a := SyncStepPossible(encodable, s);
    }
  }

  lemma SyncStepPossible(encodable: Encodable, s: State) returns (a: Action)
    requires BatchInv(encodable, s.delivery) && s.delivery.sync != SExited && !s.delivery.sync.SDropping?
    requires s.delivery.sync == SIdle ==> s.signal
    ensures Enabled(s, a) && Tidy(a)
  {
    var sync := s.delivery.sync;
    match sync
    case SIdle => a := SyncTake;
    case SLooking => a := SyncLook;
    case SQuerying =>
      var u := Unsynced(s.delivery.table);
      var batch := u[..if BATCH_SIZE < |u| then BATCH_SIZE else |u|];
      BatchIsPrefixOfUnsynced(s.delivery.table, BATCH_SIZE, batch);
      a := SyncQuery(batch, true);
    case SSending(b, done, _) => a := if done < |b| then SyncNext else SyncMark(true);
    case SWriting(_, _, _) => a := SyncWrite(true);
    case SAbandoning(_) => a := SyncAbandon(true);
  }

  /** From s on nothing is dropped, deleted or accepted. */
  ghost predicate OnlySaves(s: State, t: State) {
    && t.intake.accepted == s.intake.accepted && t.intake.calls == s.intake.calls
    && s.intake.outcomes <= t.intake.outcomes
    && s.delivery.table.rows.Keys <= t.delivery.table.rows.Keys
    && (forall k :: |s.intake.outcomes| <= k < |t.intake.outcomes| ==>
          t.intake.outcomes[k].Saved? && t.intake.outcomes[k].id in t.delivery.table.rows)
  }

  lemma TidyOnlySaves(encodable: Encodable, s: State, a: Action)
    requires TableInv(s.intake, s.delivery.table) && Enabled(s, a) && Tidy(a)
    ensures OnlySaves(s, Apply(encodable, s, a))
  {
    if SyncAction(a) {
      SyncFollows(encodable, s, a);
    } else if a.PersistSave? {
      assert Apply(encodable, s, a).intake.outcomes == s.intake.outcomes + [Saved(|s.intake.origins| + 1)];
      assert |s.intake.origins| + 1 == s.delivery.table.nextId;
    }
  }

  lemma {:induction false} TidyRunOnlySaves(encodable: Encodable, s: State, acts: seq<Action>, t: State)
    requires Inv(encodable, s) && Run(encodable, s, acts, t) && AllTidy(acts)
    ensures OnlySaves(s, t)
    decreases |acts|
  {
    if acts != [] {
      assert acts[0] in acts;
      TidyOnlySaves(encodable, s, acts[0]);
      StepKeeps(encodable, s, acts[0]);
      TidyRunOnlySaves(encodable, Apply(encodable, s, acts[0]), acts[1..], t);
    }
  }

  /** The last pass did not end in a store error, or another one is coming. */
  predicate Recovers(s: State) {
    !s.stalled || WakeupPending(s) || s.intake.logCh != [] || s.intake.persist.PHolding?
  }

  lemma {:induction false} TidyRunRecovers(encodable: Encodable, s: State, acts: seq<Action>, t: State)
    requires Recovers(s) && Run(encodable, s, acts, t) && AllTidy(acts)
    ensures Recovers(t)
    decreases |acts|
  {
    if acts != [] {
      assert acts[0] in acts;
      TidyRecovers(encodable, s, acts[0]);
      TidyRunRecovers(encodable, Apply(encodable, s, acts[0]), acts[1..], t);
    }
  }

  lemma TidyRecovers(encodable: Encodable, s: State, a: Action)
    requires Recovers(s) && Enabled(s, a) && Tidy(a)
    ensures Recovers(Apply(encodable, s, a))
  {
  }

  /** Delivery: once a tidy run has nothing left to do, every record that was in the channel or in the
      worker's hand at its start has a row, that row is marked, and it is on the wire if it can be
      encoded; an earlier store error does not matter. */
  lemma AcceptedRecordsArrive(encodable: Encodable, s: State, acts: seq<Action>, t: State, k: nat)
    requires Reachable(encodable, s) && Fine(s) && Run(encodable, s, acts, t) && AllTidy(acts) && Settled(t)
    requires |s.intake.outcomes| <= k < |s.intake.accepted|
    ensures k < |t.intake.outcomes| && t.intake.outcomes[k].Saved? && s.intake.accepted[k] < |s.intake.calls|
    ensures var id, rows := t.intake.outcomes[k].id, t.delivery.table.rows;
            && id in rows && rows[id].synced
            && StoredAs(s.intake.calls[s.intake.accepted[k]].rec, rows[id].rec)
            && (encodable(rows[id].rec) ==> id in t.delivery.wire)
  {
    ReachableInv(encodable, s);
    InFlight(s.intake);
    TidyRunsEnd(encodable, s, acts, t);
    TidyRunOnlySaves(encodable, s, acts, t);
    TidyRunRecovers(encodable, s, acts, t);
    AllDisposedOf(t.intake);
    SettledRow(encodable, t, k);
    NormalizedIsStored(s.intake.calls[s.intake.accepted[k]].rec);
  }

  lemma InFlight(i: Intake)
    requires QueueInv(i) && |i.outcomes| < |i.accepted|
    ensures i.logCh != [] || i.persist.PHolding?
  {
    assert |i.accepted[|i.outcomes|..]| > 0;
  }

  lemma AllDisposedOf(i: Intake)
    requires QueueInv(i) && i.logCh == [] && !i.persist.PHolding?
    ensures |i.outcomes| == |i.accepted|
  {
    assert |i.accepted[|i.outcomes|..]| == 0;
  }

  lemma SettledRow(encodable: Encodable, t: State, k: nat)
    requires Inv(encodable, t) && Fine(t) && Settled(t) && !t.stalled
    requires k < |t.intake.outcomes| && t.intake.outcomes[k].Saved? && t.intake.outcomes[k].id in t.delivery.table.rows
    ensures var id, rows := t.intake.outcomes[k].id, t.delivery.table.rows;
            && rows[id].synced && k < |t.intake.accepted| && t.intake.accepted[k] < |t.intake.calls|
            && rows[id].rec == Normalized(t.intake.calls[t.intake.accepted[k]].rec)
            && (encodable(rows[id].rec) ==> id in t.delivery.wire)
  {
    var id := t.intake.outcomes[k].id;
    assert MadeBy(t.intake, id, t.intake.accepted[k], true);
    assert !Waiting(t, id);
  }

  /** And from every state of that kind there is such a run. */
  lemma {:induction false} SettlesAlone(encodable: Encodable, s: State) returns (acts: seq<Action>, t: State)
    requires Inv(encodable, s) && Fine(s)
    ensures Run(encodable, s, acts, t) && AllTidy(acts) && Settled(t)
    decreases Work(s)
  {
    if Settled(s) {
      acts, t := [], s;
    } else {
      var a := TidyStepPossible(encodable, s);
      StepKeeps(encodable, s, a);
      TidyIsLighter(encodable, s, a);
      LighterIsLess(s, Apply(encodable, s, a));
      var rest;
      rest, t := SettlesAlone(encodable, Apply(encodable, s, a));
      acts := [a] + rest;
      assert acts[1..] == rest;
    }
  }

  // ---------------------------------------------------------------------------------------------
  // Which rows get there
  // ---------------------------------------------------------------------------------------------

  /** Something will make the sync worker take unsynced row id: a wake-up or a record that will cause one,
      or the pass in progress. */
  ghost predicate Noticed(s: State, id: nat) {
    || WakeupPending(s) || s.intake.logCh != [] || s.intake.persist.PHolding?
    || PassWillSee(s.delivery.sync, id) || id in Handled(s.delivery.sync)
  }

  ghost predicate StillUnsynced(s: State, id: nat) {
    id in s.delivery.table.rows && !s.delivery.table.rows[id].synced
  }

  /** Marked, or going to be. */
  ghost predicate SeenTo(s: State, id: nat) {
    id in s.delivery.table.rows && (s.delivery.table.rows[id].synced || Noticed(s, id))
  }

  ghost predicate Overlooked(s: State, id: nat) {
    StillUnsynced(s, id) && !Noticed(s, id)
  }

  /** What a tidy step does to row id. */
  ghost predicate RowFollows(s: State, s': State, id: nat) {
    && (SeenTo(s, id) ==> SeenTo(s', id))
    && (Overlooked(s, id) ==> Overlooked(s', id))
  }

  lemma RowStep(encodable: Encodable, s: State, a: Action, id: nat)
    requires Inv(encodable, s) && Fine(s) && Enabled(s, a) && Tidy(a)
    ensures RowFollows(s, Apply(encodable, s, a), id)
  {
    match a
    case PersistTake | PersistSave(_, _) | PersistSignal | Announce => RowOfIntakeStep(encodable, s, a, id);
    case SyncTake | SyncLook => RowOfLookStep(encodable, s, a, id);
    case SyncQuery(batch, _) => RowOfQuery(encodable, s, batch, id);
    case SyncNext | SyncWrite(_) => RowOfPassStep(encodable, s, a, id);
    case SyncAbandon(_) | SyncMark(_) => RowOfMarkStep(encodable, s, a, id);
  }

  lemma RowOfIntakeStep(encodable: Encodable, s: State, a: Action, id: nat)
    requires Enabled(s, a) && (a.PersistTake? || (a.PersistSave? && a.ok) || a.PersistSignal? || a.Announce?)
    requires WellFormed(s.delivery.table)
    ensures RowFollows(s, Apply(encodable, s, a), id)
  {
  }

  lemma RowOfLookStep(encodable: Encodable, s: State, a: Action, id: nat)
    requires Fine(s) && Enabled(s, a) && (a.SyncTake? || a.SyncLook?)
    ensures RowFollows(s, Apply(encodable, s, a), id)
  {
  }

  lemma RowOfQuery(encodable: Encodable, s: State, batch: seq<LogEntry>, id: nat)
    requires Fine(s) && Enabled(s, SyncQuery(batch, true))
    ensures RowFollows(s, Apply(encodable, s, SyncQuery(batch, true)), id)
  {
    if StillUnsynced(s, id) && |batch| < BATCH_SIZE {
      var k :| 0 <= k < |batch| && batch[k].id == id;
      assert IdsOf(batch)[k] == id;
    }
  }

  lemma RowOfPassStep(encodable: Encodable, s: State, a: Action, id: nat)
    requires Fine(s) && Enabled(s, a) && (a.SyncNext? || a == SyncWrite(true))
    ensures RowFollows(s, Apply(encodable, s, a), id)
  {
    var s', sync := Apply(encodable, s, a), s.delivery.sync;
    RowMoves(encodable, s, a);
    assert IdsOf(sync.batch)[sync.done] in IdsOf(sync.batch);
    PassKeepsIds(encodable, s, a);
    assert PassWillSee(s'.delivery.sync, id) == PassWillSee(sync, id);
  }

  lemma PassKeepsIds(encodable: Encodable, s: State, a: Action)
    requires Fine(s) && Enabled(s, a) && (a.SyncNext? || a == SyncWrite(true))
    ensures var sync, sync' := s.delivery.sync, Apply(encodable, s, a).delivery.sync;
            Handled(sync') == Handled(sync) || Handled(sync') == Handled(sync) + [sync.batch[sync.done].id]
  {
  }

  lemma RowOfMarkStep(encodable: Encodable, s: State, a: Action, id: nat)
    requires Inv(encodable, s) && Fine(s) && Enabled(s, a) && (a == SyncAbandon(true) || a == SyncMark(true))
    ensures RowFollows(s, Apply(encodable, s, a), id)
  {
    MarkMoves(encodable, s, a);
    if a.SyncMark? {
      assert IdsOf(s.delivery.sync.batch)[..s.delivery.sync.done] == IdsOf(s.delivery.sync.batch);
    }
    RowOfMark(s, Apply(encodable, s, a), id);
  }

  lemma RowOfMark(s: State, s': State, id: nat)
    requires s.delivery.sync.SAbandoning?
             || (s.delivery.sync.SSending? && s.delivery.sync.ids == IdsOf(s.delivery.sync.batch))
    requires |Batch(s.delivery.sync)| <= BATCH_SIZE
    requires s'.delivery.table.rows == MarkRows(s.delivery.table.rows, IdSet(Handled(s.delivery.sync)))
    requires s'.delivery.sync == if s.delivery.sync.SSending? && |Batch(s.delivery.sync)| >= BATCH_SIZE then SLooking
             else SIdle
    requires s'.intake == s.intake && s'.owed == s.owed && s'.signal == s.signal
    ensures RowFollows(s, s', id)
  {
  }

  lemma {:induction false} RowRun(encodable: Encodable, s: State, acts: seq<Action>, t: State, id: nat)
    requires Inv(encodable, s) && Fine(s) && Run(encodable, s, acts, t) && AllTidy(acts)
    ensures RowFollows(s, t, id)
    decreases |acts|
  {
    if acts != [] {
      assert acts[0] in acts;
      StepKeeps(encodable, s, acts[0]);
      TidyIsLighter(encodable, s, acts[0]);
      RowStep(encodable, s, acts[0], id);
      RowRun(encodable, Apply(encodable, s, acts[0]), acts[1..], t, id);
    }
  }

  /** Which unsynced rows are marked once a tidy run has nothing left to do: exactly those that something
      was going to notice at its start, whatever the schedule. */
  lemma RowIsSyncedIff(encodable: Encodable, s: State, acts: seq<Action>, t: State, id: nat)
    requires Inv(encodable, s) && Fine(s) && StillUnsynced(s, id)
    requires Run(encodable, s, acts, t) && AllTidy(acts) && Settled(t)
    ensures id in t.delivery.table.rows && (t.delivery.table.rows[id].synced <==> Noticed(s, id))
  {
    RowRun(encodable, s, acts, t, id);
  }
}
