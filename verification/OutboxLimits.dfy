/** Where the outbox's promise ends: a row that its emitLog caller saved without a wake-up, and a pass
    that ended in a store error. For both, exactly when the rows concerned are marked all the same. */
module OutboxLimits {
  import opened Storage
  import opened Outbox
  import opened OutboxDelivery
  import opened OutboxRuns
  import opened OutboxProgress

  // ---------------------------------------------------------------------------------------------
  // Rows saved by their callers
  // ---------------------------------------------------------------------------------------------

  /** A record that SendLog turned away is saved without a signal: when that happens in a quiet state,
      the state stays quiet and the row stays unsynced, connection or no connection. */
  lemma RejectedRecordIsStranded(encodable: Encodable, s: State, c: nat, now: int)
    requires Reachable(encodable, s) && Quiet(s)
    requires c < |s.intake.calls| && s.intake.calls[c].fate == Rejected
    ensures var s' := Apply(encodable, s, FallbackSave(c, now, true));
            var id := s.delivery.table.nextId;
            && Reachable(encodable, s') && Quiet(s')
            && s'.connected == s.connected && s'.live == s.live && s'.stalled == s.stalled
            && StillUnsynced(s', id) && PlaceOf(s'.intake, c) == InTable(id)
  {
    ReachableInv(encodable, s);
    ReachableStep(encodable, s, FallbackSave(c, now, true));
  }

  /** The sync worker is going to look at the table again, whatever comes next. */
  predicate WillLookAgain(s: State) {
    WakeupPending(s) || s.delivery.sync.SLooking? || s.delivery.sync.SQuerying?
      || |Batch(s.delivery.sync)| == BATCH_SIZE
  }

  /** Exactly when a row saved by its emitLog caller is marked, left to the two workers on a good
      connection and in whatever order they run: when a wake-up was pending anyway, the pass in progress
      was going to look again, or the persist worker still had a record that will raise the signal. */
  lemma RejectedRecordIsSyncedIff(encodable: Encodable, s: State, c: nat, now: int, acts: seq<Action>, t: State)
    requires Reachable(encodable, s) && Fine(s) && c < |s.intake.calls| && s.intake.calls[c].fate == Rejected
    requires Run(encodable, Apply(encodable, s, FallbackSave(c, now, true)), acts, t) && AllTidy(acts) && Settled(t)
    ensures var id := s.delivery.table.nextId;
            && id in t.delivery.table.rows
            && (t.delivery.table.rows[id].synced <==>
                WillLookAgain(s) || s.intake.logCh != [] || s.intake.persist.PHolding?)
  {
    ReachableInv(encodable, s);
    var s', id := Apply(encodable, s, FallbackSave(c, now, true)), s.delivery.table.nextId;
    StepKeeps(encodable, s, FallbackSave(c, now, true));
    NotYetInBatch(encodable, s.delivery);
    RowIsSyncedIff(encodable, s', acts, t, id);
  }

  /** The next id is in no batch. */
  lemma NotYetInBatch(encodable: Encodable, d: Delivery)
    requires BatchInv(encodable, d)
    ensures d.table.nextId !in IdsOf(Batch(d.sync)) && d.table.nextId !in Handled(d.sync)
  {
    var b := Batch(d.sync);
    assert forall k :: 0 <= k < |b| ==> IdsOf(b)[k] == b[k].id;
  }

  // ---- that it happens ----

  /** A refusal that a live, connected agent really gives: the channel is full. */
  predicate Genuine(a: Action) {
    a.EmitReject? ==> !a.refused
  }

  ghost predicate GenuineRun(encodable: Encodable, acts: seq<Action>, s: State) {
    Run(encodable, INITIAL, acts, s) && forall a :: a in acts ==> Genuine(a)
  }

  lemma Extend(encodable: Encodable, acts: seq<Action>, s: State, a: Action) returns (acts': seq<Action>, t: State)
    requires GenuineRun(encodable, acts, s) && Enabled(s, a) && Genuine(a)
    ensures GenuineRun(encodable, acts', t) && t == Apply(encodable, s, a)
  {
    RunExtends(encodable, INITIAL, acts, s, a);
    acts', t := acts + [a], Apply(encodable, s, a);
  }

  /** Connected for the first time, nothing emitted yet, all quiet. */
  lemma QuietWitness(encodable: Encodable) returns (acts: seq<Action>, s: State)
    ensures GenuineRun(encodable, acts, s)
    ensures s == INITIAL.(connected := true)
  {
    acts, s := [], INITIAL;
    acts, s := Extend(encodable, acts, s, Connect);
    acts, s := Extend(encodable, acts, s, Announce);
    acts, s := Extend(encodable, acts, s, SyncTake);
    acts, s := Extend(encodable, acts, s, SyncLook);
    acts, s := Extend(encodable, acts, s, SyncQuery([], true));
  }

  /** n more records are accepted before the persist worker runs. */
  lemma {:induction false} FillChannel(encodable: Encodable, acts: seq<Action>, s: State, rec: LogRecord, n: nat)
    returns (acts': seq<Action>, t: State)
    requires GenuineRun(encodable, acts, s) && Fine(s) && !s.stalled && |s.intake.logCh| + n <= LOG_BUFFER_SIZE
    ensures GenuineRun(encodable, acts', t) && Fine(t) && !t.stalled && |t.intake.logCh| == |s.intake.logCh| + n
    decreases n
  {
    acts', t := acts, s;
    if n > 0 {
      acts', t := Extend(encodable, acts, s, EmitAccept(rec));
      acts', t := FillChannel(encodable, acts', t, rec, n - 1);
    }
  }

  /** A burst fills the channel, one more record is turned away, the workers clear the channel, and only
      then does the caller save its record: everything is settled, the connection is good, no store call
      has failed, and the row stays unsynced. */
  lemma StrandedRowWitness(encodable: Encodable, rec: LogRecord) returns (acts: seq<Action>, s: State, id: nat)
    ensures GenuineRun(encodable, acts, s) && Fine(s) && !s.stalled && Settled(s)
    ensures StillUnsynced(s, id) && Overlooked(s, id)
  {
    acts, s := QuietWitness(encodable);
    acts, s := FillChannel(encodable, acts, s, rec, LOG_BUFFER_SIZE);
    var c := |s.intake.calls|;
    acts, s := Extend(encodable, acts, s, EmitReject(rec, false));
    assert s.intake.calls[c].fate == Rejected;
    acts, s := Settle(encodable, acts, s);
    id := s.delivery.table.nextId;
    assert Reachable(encodable, s);
    RejectedRecordIsStranded(encodable, s, c, 0);
    acts, s := Extend(encodable, acts, s, FallbackSave(c, 0, true));
  }

  /** The workers run until nothing is left to do. */
  lemma Settle(encodable: Encodable, acts: seq<Action>, s: State) returns (acts': seq<Action>, t: State)
    requires GenuineRun(encodable, acts, s) && Fine(s) && !s.stalled
    ensures GenuineRun(encodable, acts', t) && Fine(t) && !t.stalled && Settled(t) && t.intake.calls == s.intake.calls
  {
    assert Reachable(encodable, s);
    ReachableInv(encodable, s);
    var rest;
    rest, t := SettlesAlone(encodable, s);
    TidyRunsEnd(encodable, s, rest, t);
    TidyRunOnlySaves(encodable, s, rest, t);
    TidyRunRecovers(encodable, s, rest, t);
    RunsJoin(encodable, INITIAL, acts, s, rest, t);
    acts' := acts + rest;
  }

  // ---------------------------------------------------------------------------------------------
  // Passes that end in a store error
  // ---------------------------------------------------------------------------------------------

  /** A step that ends a pass in a store error: the query, or the mark of a batch, fails. */
  predicate FailsPass(s: State, a: Action) {
    (a.SyncQuery? && !a.ok) || (a == SyncMark(false) && Handled(s.delivery.sync) != [])
  }

  /** Exactly when a row that such a pass left behind is marked by the two workers: when a wake-up was
      pending or the persist worker still had a record; otherwise it waits for the next record or
      connect. */
  lemma FailedPassRowIsSyncedIff(encodable: Encodable, s: State, a: Action, id: nat, acts: seq<Action>, t: State)
    requires Reachable(encodable, s) && Fine(s) && Enabled(s, a) && FailsPass(s, a) && StillUnsynced(s, id)
    requires Run(encodable, Apply(encodable, s, a), acts, t) && AllTidy(acts) && Settled(t)
    ensures id in t.delivery.table.rows
    ensures t.delivery.table.rows[id].synced <==>
            WakeupPending(s) || s.intake.logCh != [] || s.intake.persist.PHolding?
  {
    ReachableInv(encodable, s);
    StepKeeps(encodable, s, a);
    RowIsSyncedIff(encodable, Apply(encodable, s, a), acts, t, id);
  }

  /** And any signal is enough: after one, by whomever, the workers mark every row there is. */
  lemma AnySignalSuffices(encodable: Encodable, s: State, a: Action, id: nat, acts: seq<Action>, t: State)
    requires Reachable(encodable, s) && Fine(s) && StillUnsynced(s, id)
    requires (a.PersistSignal? || a.Announce? || a.Nudge?) && Enabled(s, a)
    requires Run(encodable, Apply(encodable, s, a), acts, t) && AllTidy(acts) && Settled(t)
    ensures id in t.delivery.table.rows && t.delivery.table.rows[id].synced
  {
    ReachableInv(encodable, s);
    StepKeeps(encodable, s, a);
    RowIsSyncedIff(encodable, Apply(encodable, s, a), acts, t, id);
  }

  /** The sync worker sleeps and row id, if it is there, is unsynced. */
  ghost predicate Sleeps(s: State, id: nat) {
    && (s.delivery.sync == SIdle || s.delivery.sync == SExited) && !s.signal
    && (id in s.delivery.table.rows ==> !s.delivery.table.rows[id].synced)
  }

  /** And nothing but a signal changes that: in no run without one is the row ever marked, whatever
      connects, drops, is emitted, saved or deleted meanwhile. */
  lemma {:induction false} NothingButASignal(encodable: Encodable, s: State, acts: seq<Action>, t: State, id: nat)
    requires Sleeps(s, id) && Run(encodable, s, acts, t)
    requires forall a :: a in acts ==> !a.PersistSignal? && !a.Announce? && !a.Nudge?
    ensures Sleeps(t, id)
    decreases |acts|
  {
    if acts != [] {
      assert acts[0] in acts;
      SleepsOn(encodable, s, acts[0], id);
      NothingButASignal(encodable, Apply(encodable, s, acts[0]), acts[1..], t, id);
    }
  }

  lemma SleepsOn(encodable: Encodable, s: State, a: Action, id: nat)
    requires Sleeps(s, id) && Enabled(s, a) && !a.PersistSignal? && !a.Announce? && !a.Nudge?
    ensures Sleeps(Apply(encodable, s, a), id)
  {
  }

  // ---- that it happens ----

  /** One record is in the table and the sync worker is about to ask for it. */
  lemma QueryingWitness(encodable: Encodable, rec: LogRecord) returns (acts: seq<Action>, s: State)
    ensures GenuineRun(encodable, acts, s)
    ensures Fine(s) && s.delivery.sync == SQuerying && !WakeupPending(s)
    ensures s.intake.logCh == [] && s.intake.persist == PIdle && s.intake.origins == [Origin(0, true, 1, 0)]
    ensures s.delivery.table == Insert(EMPTY_TABLE, rec, 0) && s.delivery.wire == []
  {
    acts, s := SavedWitness(encodable, rec);
    acts, s := Extend(encodable, acts, s, PersistSignal);
    acts, s := Extend(encodable, acts, s, SyncTake);
    acts, s := Extend(encodable, acts, s, SyncLook);
  }

  lemma SavedWitness(encodable: Encodable, rec: LogRecord) returns (acts: seq<Action>, s: State)
    ensures GenuineRun(encodable, acts, s)
    ensures Fine(s) && s.delivery.sync == SIdle && !s.signal && s.owed == 0
    ensures s.intake.logCh == [] && s.intake.persist == PSignalling && s.intake.origins == [Origin(0, true, 1, 0)]
    ensures s.delivery.table == Insert(EMPTY_TABLE, rec, 0) && s.delivery.wire == []
  {
    acts, s := QuietWitness(encodable);
    acts, s := Extend(encodable, acts, s, EmitAccept(rec));
    acts, s := Extend(encodable, acts, s, PersistTake);
    acts, s := Extend(encodable, acts, s, PersistSave(0, true));
  }

  /** The query fails: connected, settled, and an accepted record's row waits. */
  lemma FailedQueryWitness(encodable: Encodable, rec: LogRecord) returns (acts: seq<Action>, s: State)
    ensures GenuineRun(encodable, acts, s) && Fine(s) && s.stalled && Settled(s)
    ensures Waiting(s, 1) && Sleeps(s, 1)
  {
    acts, s := QueryingWitness(encodable, rec);
    acts, s := Extend(encodable, acts, s, SyncQuery([], false));
  }

  /** The mark fails, the row having been sent if it can be encoded: the same, and its frame will go out
      again. */
  lemma FailedMarkWitness(encodable: Encodable, rec: LogRecord) returns (acts: seq<Action>, s: State)
    ensures GenuineRun(encodable, acts, s) && Fine(s) && s.stalled && Settled(s)
    ensures Waiting(s, 1) && Sleeps(s, 1)
    ensures s.delivery.wire == if encodable(Normalized(rec)) then [1] else []
  {
    acts, s := SentWitness(encodable, rec);
    acts, s := Extend(encodable, acts, s, SyncMark(false));
  }

  lemma SentWitness(encodable: Encodable, rec: LogRecord) returns (acts: seq<Action>, s: State)
    ensures GenuineRun(encodable, acts, s)
    ensures Fine(s) && !WakeupPending(s)
    ensures s.delivery.sync == SSending([LogEntry(1, Normalized(rec), 0, false)], 1, [1])
    ensures s.intake.logCh == [] && s.intake.persist == PIdle && s.intake.origins == [Origin(0, true, 1, 0)]
    ensures s.delivery.table == Insert(EMPTY_TABLE, rec, 0)
    ensures s.delivery.wire == if encodable(Normalized(rec)) then [1] else []
  {
    var row := LogEntry(1, Normalized(rec), 0, false);
    acts, s := QueryingWitness(encodable, rec);
    assert [row][0].id == 1;
    acts, s := Extend(encodable, acts, s, SyncQuery([row], true));
    acts, s := Extend(encodable, acts, s, SyncNext);
    if encodable(row.rec) {
      acts, s := Extend(encodable, acts, s, SyncWrite(true));
    }
  }
}
