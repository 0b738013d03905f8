/** The logs table outlives everything but a delete: failed calls, dropped connections, and the agent
    itself; and the next agent sends what the last one left. */
module OutboxDurability {
  import opened Storage
  import opened Outbox
  import opened OutboxDelivery
  import opened OutboxRuns
  import opened OutboxProgress

  /** Row id is still there, says what it said, and is marked if it was. */
  ghost predicate RowKept(rows: map<nat, LogEntry>, rows': map<nat, LogEntry>, id: nat) {
    id in rows ==>
      && id in rows'
      && rows'[id].id == rows[id].id && rows'[id].rec == rows[id].rec && rows'[id].createdAt == rows[id].createdAt
      && (rows[id].synced ==> rows'[id].synced)
  }

  /** No step of acts deletes bot botId's logs. */
  ghost predicate SparesBot(acts: seq<Action>, botId: string) {
    forall a :: a in acts ==> a != Delete(botId)
  }

  /** Durability: in any run whatsoever, with any failures and any number of restarts, a row stays as it was
      but for being marked, unless its own bot's logs are deleted. */
  lemma {:induction false} RowsAreKept(encodable: Encodable, s: State, acts: seq<Action>, t: State, id: nat)
    requires Inv(encodable, s) && Run(encodable, s, acts, t) && id in s.delivery.table.rows
    requires SparesBot(acts, s.delivery.table.rows[id].rec.botId)
    ensures RowKept(s.delivery.table.rows, t.delivery.table.rows, id)
    decreases |acts|
  {
    if acts != [] {
      var a, botId := acts[0], s.delivery.table.rows[id].rec.botId;
      var u := Apply(encodable, s, a);
      assert a in acts;
      StepKeeps(encodable, s, a);
      RowKeptStep(encodable, s, a, id);
      SparesRest(acts, botId);
      RowsAreKept(encodable, u, acts[1..], t, id);
      RowKeptJoin(s.delivery.table.rows, u.delivery.table.rows, t.delivery.table.rows, id);
    }
  }

  lemma SparesRest(acts: seq<Action>, botId: string)
    requires acts != [] && SparesBot(acts, botId)
    ensures SparesBot(acts[1..], botId)
  {
    assert forall a :: a in acts[1..] ==> a in acts;
  }

  lemma RowKeptJoin(a: map<nat, LogEntry>, b: map<nat, LogEntry>, c: map<nat, LogEntry>, id: nat)
    requires RowKept(a, b, id) && RowKept(b, c, id)
    ensures RowKept(a, c, id)
  {
  }

  lemma RowKeptStep(encodable: Encodable, s: State, a: Action, id: nat)
    requires WellFormed(s.delivery.table) && Enabled(s, a)
    requires id in s.delivery.table.rows && a != Delete(s.delivery.table.rows[id].rec.botId)
    ensures RowKept(s.delivery.table.rows, Apply(encodable, s, a).delivery.table.rows, id)
  {
    if a.SyncMark? || a.SyncAbandon? {
      RowKeptByMark(encodable, s, a, id);
    } else if SyncAction(a) {
      RowKeptByPass(encodable, s, a);
    } else if a.FallbackSave? || a.PersistSave? || a.Delete? {
      RowKeptByStore(encodable, s, a, id);
    } else {
      RowKeptByOthers(encodable, s, a, id);
    }
  }

  lemma RowKeptByMark(encodable: Encodable, s: State, a: Action, id: nat)
    requires Enabled(s, a) && (a.SyncMark? || a.SyncAbandon?)
    ensures RowKept(s.delivery.table.rows, Apply(encodable, s, a).delivery.table.rows, id)
  {
    assert Apply(encodable, s, a).delivery
        == MarkHandled(s.delivery, a.ok, Apply(encodable, s, a).delivery.sync);
  }

  lemma RowKeptByPass(encodable: Encodable, s: State, a: Action)
    requires Enabled(s, a) && SyncAction(a) && !a.SyncMark? && !a.SyncAbandon?
    ensures Apply(encodable, s, a).delivery.table == s.delivery.table
  {
  }

  lemma RowKeptByStore(encodable: Encodable, s: State, a: Action, id: nat)
    requires WellFormed(s.delivery.table) && Enabled(s, a) && (a.FallbackSave? || a.PersistSave? || a.Delete?)
    requires id in s.delivery.table.rows && a != Delete(s.delivery.table.rows[id].rec.botId)
    ensures RowKept(s.delivery.table.rows, Apply(encodable, s, a).delivery.table.rows, id)
  {
  }

  lemma RowKeptByOthers(encodable: Encodable, s: State, a: Action, id: nat)
    requires Enabled(s, a) && !SyncAction(a) && !a.FallbackSave? && !a.PersistSave? && !a.Delete?
    ensures RowKept(s.delivery.table.rows, Apply(encodable, s, a).delivery.table.rows, id)
  {
  }

  /** And a delete leaves no row of its bot. */
  lemma DeletedRowsAreGone(encodable: Encodable, s: State, botId: string, id: nat)
    requires id in Apply(encodable, s, Delete(botId)).delivery.table.rows
    ensures Apply(encodable, s, Delete(botId)).delivery.table.rows[id].rec.botId != botId
    ensures id in s.delivery.table.rows
  {
  }

  /** What a restart does to the rest. */
  lemma AfterRestart(encodable: Encodable, s: State, u: State)
    requires Inv(encodable, s) && Run(encodable, s, [Restart, Connect, Announce], u)
    ensures Inv(encodable, u) && Fine(u) && u.signal
  {
    assert [Restart, Connect, Announce][1..] == [Connect, Announce];
    assert [Connect, Announce][1..] == [Announce];
    assert [Announce][1..] == [];
    RunKeeps(encodable, s, [Restart, Connect, Announce], u);
    var c := Apply(encodable, Apply(encodable, s, Restart), Connect);
    assert c.live && c.connected && c.delivery.sync == SIdle;
    assert u == Apply(encodable, c, Announce);
  }

  /** Recovery: the agent dies at any moment, another one opens the same database and connects; once its
      workers have nothing left to do, in whatever order they ran, every row the first agent left
      is marked, says what it said, and is on the wire if it can be encoded. */
  lemma RestartedAgentSyncs(encodable: Encodable, s: State, u: State, acts: seq<Action>, t: State, id: nat)
    requires Reachable(encodable, s) && id in s.delivery.table.rows
    requires Run(encodable, s, [Restart, Connect, Announce], u)
    requires Run(encodable, u, acts, t) && AllTidy(acts) && Settled(t)
    ensures RowKept(s.delivery.table.rows, t.delivery.table.rows, id)
    ensures t.delivery.table.rows[id].synced
    ensures encodable(s.delivery.table.rows[id].rec) ==> id in t.delivery.wire
  {
    ReachableInv(encodable, s);
    RestartKeepsRow(encodable, s, u, id);
    WorkersSync(encodable, u, acts, t, id);
    RowKeptJoin(s.delivery.table.rows, u.delivery.table.rows, t.delivery.table.rows, id);
  }

  lemma RestartKeepsRow(encodable: Encodable, s: State, u: State, id: nat)
    requires Inv(encodable, s) && id in s.delivery.table.rows
    requires Run(encodable, s, [Restart, Connect, Announce], u)
    ensures Inv(encodable, u) && Fine(u) && u.signal && RowKept(s.delivery.table.rows, u.delivery.table.rows, id)
  {
    var acts := [Restart, Connect, Announce];
    AfterRestart(encodable, s, u);
    RestartSparesAll(acts, s.delivery.table.rows[id].rec.botId);
    RowsAreKept(encodable, s, acts, u, id);
  }

  lemma RestartSparesAll(acts: seq<Action>, botId: string)
    requires acts == [Restart, Connect, Announce]
    ensures SparesBot(acts, botId)
  {
  }

  /** With a signal there, the workers see to every row. */
  lemma WorkersSync(encodable: Encodable, u: State, acts: seq<Action>, t: State, id: nat)
    requires Inv(encodable, u) && Fine(u) && u.signal && id in u.delivery.table.rows
    requires Run(encodable, u, acts, t) && AllTidy(acts) && Settled(t)
    ensures RowKept(u.delivery.table.rows, t.delivery.table.rows, id)
    ensures t.delivery.table.rows[id].synced && (encodable(t.delivery.table.rows[id].rec) ==> id in t.delivery.wire)
  {
    TidySparesAll(acts, u.delivery.table.rows[id].rec.botId);
    RowsAreKept(encodable, u, acts, t, id);
    TidyRunsEnd(encodable, u, acts, t);
    if StillUnsynced(u, id) {
      RowIsSyncedIff(encodable, u, acts, t, id);
    }
    SyncedIsSent(encodable, t, id);
  }

  lemma TidySparesAll(acts: seq<Action>, botId: string)
    requires AllTidy(acts)
    ensures SparesBot(acts, botId)
  {
  }

  lemma SyncedIsSent(encodable: Encodable, t: State, id: nat)
    requires Inv(encodable, t) && id in t.delivery.table.rows && t.delivery.table.rows[id].synced
    ensures encodable(t.delivery.table.rows[id].rec) ==> id in t.delivery.wire
  {
  }

  /** Such a run exists whenever the agent dies. */
  lemma RestartedAgentSettles(encodable: Encodable, s: State) returns (u: State, acts: seq<Action>, t: State)
    requires Reachable(encodable, s)
    ensures Run(encodable, s, [Restart, Connect, Announce], u)
    ensures Run(encodable, u, acts, t) && AllTidy(acts) && Settled(t)
  {
    ReachableInv(encodable, s);
    var r := Apply(encodable, s, Restart);
    var c := Apply(encodable, r, Connect);
    u := Apply(encodable, c, Announce);
    assert Run(encodable, u, [], u);
    assert [Announce][1..] == [];
    assert Run(encodable, c, [Announce], u);
    assert [Connect, Announce][1..] == [Announce];
    assert Run(encodable, r, [Connect, Announce], u);
    assert [Restart, Connect, Announce][1..] == [Connect, Announce];
    AfterRestart(encodable, s, u);
    acts, t := SettlesAlone(encodable, u);
  }
}
