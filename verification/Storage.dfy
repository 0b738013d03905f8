/** The logs table of internal/storage/sqlite.go.

    A table is a map from row id to row together with the AUTOINCREMENT counter. Queries are
    specified declaratively (what SELECT ... ORDER BY id LIMIT n must return) and the class Store
    is proved against that specification. */
module Storage {
  import opened Prelude

  /** The columns a caller supplies (queuedLog in the connection manager). */
  datatype LogRecord = LogRecord(botId: string, level: string, message: string, data: string)

  datatype LogEntry = LogEntry(id: nat, rec: LogRecord, createdAt: int, synced: bool)

  datatype Table = Table(rows: map<nat, LogEntry>, nextId: nat)

  datatype StoreError = NotInitialized | DatabaseError

  const DEFAULT_LIMIT := 100

  const EMPTY_TABLE := Table(map[], 1)

  ghost predicate WellFormed(t: Table) {
    && 1 <= t.nextId
    && (forall id :: id in t.rows ==> 1 <= id < t.nextId && t.rows[id].id == id)
  }

  /** SaveLog stores "{}" in place of blank data. */
  function Normalized(rec: LogRecord): LogRecord {
    if Blank(rec.data) then rec.(data := "{}") else rec
  }

  /** What a row says of the record it was made from: everything, but for blank data. */
  predicate StoredAs(rec: LogRecord, stored: LogRecord) {
    && stored.botId == rec.botId && stored.level == rec.level && stored.message == rec.message
    && stored.data == if exists k :: 0 <= k < |rec.data| && !IsSpace(rec.data[k]) then rec.data else "{}"
  }

  lemma NormalizedIsStored(rec: LogRecord)
    ensures StoredAs(rec, Normalized(rec))
  {
    BlankIff(rec.data);
  }

  function Insert(t: Table, rec: LogRecord, now: int): Table {
    Table(t.rows[t.nextId := LogEntry(t.nextId, Normalized(rec), now, false)], t.nextId + 1)
  }

  function MarkRows(rows: map<nat, LogEntry>, ids: set<nat>): map<nat, LogEntry> {
    map id | id in rows :: if id in ids then rows[id].(synced := true) else rows[id]
  }

  function DeleteRows(rows: map<nat, LogEntry>, botId: string): map<nat, LogEntry> {
    map id | id in rows && rows[id].rec.botId != botId :: rows[id]
  }

  function IdsOf(batch: seq<LogEntry>): (ids: seq<nat>)
    ensures |ids| == |batch|
    ensures forall k :: 0 <= k < |batch| ==> ids[k] == batch[k].id
  {
    seq(|batch|, k requires 0 <= k < |batch| => batch[k].id)
  }

  function IdSet(ids: seq<nat>): set<nat> {
    set id | id in ids
  }

  ghost predicate SortedById(batch: seq<LogEntry>) {
    forall i, j :: 0 <= i < j < |batch| ==> batch[i].id < batch[j].id
  }

  /** What `SELECT ... WHERE synced = 0 ORDER BY id ASC LIMIT n` must return. */
  ghost predicate IsFirstUnsynced(batch: seq<LogEntry>, rows: map<nat, LogEntry>, n: nat) {
    && SortedById(batch)
    && |batch| <= n
    && (forall k :: 0 <= k < |batch| ==>
          batch[k].id in rows && rows[batch[k].id] == batch[k] && !batch[k].synced)
    && (forall id :: id in rows && !rows[id].synced ==>
          || (exists k :: 0 <= k < |batch| && batch[k].id == id)
          || (|batch| == n && forall k :: 0 <= k < |batch| ==> batch[k].id < id))
  }

  /** The unsynced rows with lo <= id < hi, in id order. */
  function Scan(rows: map<nat, LogEntry>, lo: nat, hi: nat): seq<LogEntry>
    decreases hi - lo
  {
    if lo >= hi then []
    else if lo in rows && !rows[lo].synced then [rows[lo]] + Scan(rows, lo + 1, hi)
    else Scan(rows, lo + 1, hi)
  }

  /** All unsynced rows of a table, in id order. */
  function Unsynced(t: Table): seq<LogEntry> {
    Scan(t.rows, 1, t.nextId)
  }

  lemma {:induction false} ScanSpec(rows: map<nat, LogEntry>, lo: nat, hi: nat)
    requires forall id :: id in rows ==> rows[id].id == id
    ensures SortedById(Scan(rows, lo, hi))
    ensures forall k :: 0 <= k < |Scan(rows, lo, hi)| ==>
              var e := Scan(rows, lo, hi)[k];
              lo <= e.id < hi && e.id in rows && rows[e.id] == e && !e.synced
    ensures forall id :: lo <= id < hi && id in rows && !rows[id].synced ==> rows[id] in Scan(rows, lo, hi)
    decreases hi - lo
  {
    if lo < hi {
      ScanSpec(rows, lo + 1, hi);
    }
  }

  /** An answer has all older unsynced rows before its k-th one, and all rows if it is short. */
  lemma OlderComeFirst(a: seq<LogEntry>, rows: map<nat, LogEntry>, n: nat, k: nat, x: nat)
    requires IsFirstUnsynced(a, rows, n) && k <= |a| && x in rows && !rows[x].synced
    ensures (if k < |a| then x < a[k].id else |a| < n) ==> exists j :: 0 <= j < k && a[j].id == x
  {
    if if k < |a| then x < a[k].id else |a| < n {
      var j :| 0 <= j < |a| && a[j].id == x;
      assert j < k;
    }
  }

  /** Two answers that agree up to k: the second does not have an older row next. */
  lemma NotOlder(a: seq<LogEntry>, b: seq<LogEntry>, rows: map<nat, LogEntry>, n: nat, k: nat)
    requires IsFirstUnsynced(a, rows, n) && IsFirstUnsynced(b, rows, n)
    requires k < |a| && k < |b| && a[..k] == b[..k]
    ensures a[k].id <= b[k].id
  {
    OlderComeFirst(a, rows, n, k, b[k].id);
    assert forall j :: 0 <= j < k ==> a[j] == a[..k][j] == b[j];
  }

  /** The declarative query determines its answer. */
  lemma FirstUnsyncedUnique(a: seq<LogEntry>, b: seq<LogEntry>, rows: map<nat, LogEntry>, n: nat)
    requires IsFirstUnsynced(a, rows, n) && IsFirstUnsynced(b, rows, n)
    requires |a| <= |b|
    ensures a == b
  {
    FirstUnsyncedPrefix(a, b, rows, n, |a|);
    if b != [] {
      OlderComeFirst(a, rows, n, |a|, b[|b| - 1].id);
    }
    assert forall j :: 0 <= j < |a| ==> a[j] == a[..|a|][j] == b[j];
    assert |a| == |b|;
  }

  lemma PrefixGrows(a: seq<LogEntry>, b: seq<LogEntry>, m: nat)
    requires m < |a| && m < |b| && a[..m] == b[..m] && a[m] == b[m]
    ensures a[..m + 1] == b[..m + 1]
  {
    assert a[..m + 1] == a[..m] + [a[m]] && b[..m + 1] == b[..m] + [b[m]];
  }

  lemma {:induction false} FirstUnsyncedPrefix(a: seq<LogEntry>, b: seq<LogEntry>, rows: map<nat, LogEntry>,
                                               n: nat, k: nat)
    requires IsFirstUnsynced(a, rows, n) && IsFirstUnsynced(b, rows, n)
    requires k <= |a| <= |b|
    ensures a[..k] == b[..k]
  {
    if k > 0 {
      var m := k - 1;
      FirstUnsyncedPrefix(a, b, rows, n, m);
      NotOlder(a, b, rows, n, m);
      NotOlder(b, a, rows, n, m);
      assert a[m] == rows[a[m].id] == b[m];
      PrefixGrows(a, b, m);
    }
  }

  /** The batch a query returns is the prefix of length n of all unsynced rows, and nothing else is. */
  lemma BatchIsPrefixOfUnsynced(t: Table, n: nat, batch: seq<LogEntry>)
    requires WellFormed(t)
    ensures IsFirstUnsynced(batch, t.rows, n) <==>
            batch == Unsynced(t)[..if n < |Unsynced(t)| then n else |Unsynced(t)|]
  {
    var u := Unsynced(t);
    ScanSpec(t.rows, 1, t.nextId);
    var p := u[..if n < |u| then n else |u|];
    forall id | id in t.rows && !t.rows[id].synced
      ensures || (exists k :: 0 <= k < |p| && p[k].id == id)
              || (|p| == n && forall k :: 0 <= k < |p| ==> p[k].id < id)
    {
      var k :| 0 <= k < |u| && u[k] == t.rows[id];
      if k < |p| {
        assert p[k].id == id;
      }
    }
    assert IsFirstUnsynced(p, t.rows, n);
    if IsFirstUnsynced(batch, t.rows, n) {
      if |batch| <= |p| {
        FirstUnsyncedUnique(batch, p, t.rows, n);
      } else {
        FirstUnsyncedUnique(p, batch, t.rows, n);
      }
    }
  }

  /** Marking the first k unsynced rows leaves exactly the others unsynced, in the same order. */
  lemma MarkPrefix(t: Table, k: nat)
    requires WellFormed(t) && k <= |Unsynced(t)|
    ensures var t' := t.(rows := MarkRows(t.rows, IdSet(IdsOf(Unsynced(t)[..k]))));
            WellFormed(t') && Unsynced(t') == Unsynced(t)[k..]
  {
    var u := Unsynced(t);
    var rows' := MarkRows(t.rows, IdSet(IdsOf(u[..k])));
    ScanSpec(t.rows, 1, t.nextId);
    MarkedIds(u, k);
    RestIsFirst(u, t.rows, rows', k);
    BatchIsPrefixOfUnsynced(t.(rows := rows'), |u| - k + 1, u[k..]);
  }

  lemma MarkedIds(u: seq<LogEntry>, k: nat)
    requires SortedById(u) && k <= |u|
    ensures forall i :: 0 <= i < |u| ==> (u[i].id in IdSet(IdsOf(u[..k])) <==> i < k)
  {
    var ids := IdsOf(u[..k]);
    assert |ids| == k && forall i :: 0 <= i < k ==> ids[i] == u[i].id;
  }

  lemma RestIsFirst(u: seq<LogEntry>, rows: map<nat, LogEntry>, rows': map<nat, LogEntry>, k: nat)
    requires k <= |u| && SortedById(u)
    requires forall i :: 0 <= i < |u| ==> u[i].id in rows && rows[u[i].id] == u[i] && !u[i].synced
    requires forall id :: id in rows && !rows[id].synced ==> rows[id] in u
    requires forall i :: 0 <= i < |u| ==> (u[i].id in IdSet(IdsOf(u[..k])) <==> i < k)
    requires forall id :: id in rows ==> rows[id].id == id
    requires rows' == MarkRows(rows, IdSet(IdsOf(u[..k])))
    ensures IsFirstUnsynced(u[k..], rows', |u| - k + 1)
  {
    var rest := u[k..];
    forall id | id in rows' && !rows'[id].synced
      ensures exists j :: 0 <= j < |rest| && rest[j].id == id
    {
      assert rows'[id] == rows[id];
      var i :| 0 <= i < |u| && u[i] == rows[id];
      assert i >= k && rest[i - k] == u[i];
    }
  }

  /** Deleting is determined by what is left. */
  lemma DeletedExactly(rows: map<nat, LogEntry>, botId: string, rows': map<nat, LogEntry>)
    requires forall id :: id in rows' <==> id in rows && rows[id].rec.botId != botId
    requires forall id :: id in rows' ==> rows'[id] == rows[id]
    ensures rows' == DeleteRows(rows, botId)
  {
  }

  /** One row per insert: ids are handed out in insertion order and never reused, even after deletes. */
  class Store {
    var initialized: bool
    var rows: map<nat, LogEntry>
    var nextId: nat
    ghost var asked: nat   // calls of GetUnsyncedLogs so far

    ghost predicate Valid()
      reads this
    {
      WellFormed(Contents())
    }

    function Contents(): Table
      reads this
    {
      Table(rows, nextId)
    }

    constructor ()
      ensures Valid() && initialized && Contents() == EMPTY_TABLE && asked == 0
    {
      asked := 0;
      initialized := true;
      rows := map[];
      nextId := 1;
    }

    method SaveLog(botId: string, level: string, message: string, data: string, now: int, dbOk: bool)
      returns (r: Option<StoreError>)
      requires Valid()
      modifies `rows, `nextId
      ensures Valid()
      ensures r.None? <==> initialized && dbOk
      ensures r.Some? ==> rows == old(rows) && nextId == old(nextId)
      ensures r.None? ==>
                && nextId == old(nextId) + 1
                && rows.Keys == old(rows).Keys + {old(nextId)}
                && (forall id :: id in old(rows) ==> rows[id] == old(rows)[id])
                && var row := rows[old(nextId)];
                   && row.id == old(nextId) && row.createdAt == now && !row.synced
                   && StoredAs(LogRecord(botId, level, message, data), row.rec)
      ensures Contents() == if r.None?
                            then Insert(old(Contents()), LogRecord(botId, level, message, data), now)
                            else old(Contents())
    {
      NormalizedIsStored(LogRecord(botId, level, message, data));
      if !initialized {
        return Some(NotInitialized);
      }
      var stored := data;
      if TrimSpace(data) == "" {
        stored := "{}";
      }
      if !dbOk {
        return Some(DatabaseError);
      }
      rows := rows[nextId := LogEntry(nextId, LogRecord(botId, level, message, stored), now, false)];
      nextId := nextId + 1;
      return None;
    }

    method GetUnsyncedLogs(limit: int, dbOk: bool) returns (r: Result<seq<LogEntry>, StoreError>)
      requires Valid()
      modifies `asked
      ensures asked == old(asked) + 1
      ensures r.Ok? <==> initialized && dbOk
      ensures r.Ok? ==> IsFirstUnsynced(r.value, rows, if limit <= 0 then DEFAULT_LIMIT else limit)
    {
      asked := asked + 1;
      if !initialized {
        return Err(NotInitialized);
      }
      var n: nat := if limit <= 0 then DEFAULT_LIMIT else limit;
      if !dbOk {
        return Err(DatabaseError);
      }
      var entries: seq<LogEntry> := [];
      var id := 1;
      while id < nextId && |entries| < n
        invariant 1 <= id <= nextId && |entries| <= n
        invariant SortedById(entries)
        invariant forall k :: 0 <= k < |entries| ==>
                    && entries[k].id < id && entries[k].id in rows
                    && rows[entries[k].id] == entries[k] && !entries[k].synced
        invariant forall j :: j in rows && j < id && !rows[j].synced ==>
                    exists k :: 0 <= k < |entries| && entries[k].id == j
      {
        ghost var before := entries;
        if id in rows && !rows[id].synced {
          entries := entries + [rows[id]];
          assert entries[|entries| - 1].id == id;
        }
        forall j | j in rows && j < id + 1 && !rows[j].synced
          ensures exists k :: 0 <= k < |entries| && entries[k].id == j
        {
          if j < id {
            var k :| 0 <= k < |before| && before[k].id == j;
            assert entries[k].id == j;
          }
        }
        id := id + 1;
      }
      return Ok(entries);
    }

    method MarkLogsSynced(ids: seq<nat>, dbOk: bool) returns (r: Option<StoreError>)
      requires Valid()
      modifies `rows
      ensures Valid()
      ensures r.None? <==> initialized && (ids == [] || dbOk)
      ensures rows == if r.None? then MarkRows(old(rows), IdSet(ids)) else old(rows)
      ensures rows.Keys == old(rows).Keys
      ensures forall id :: id in rows ==>
                rows[id] == old(rows)[id].(synced := old(rows)[id].synced || (r.None? && id in ids))
    {
      if !initialized {
        return Some(NotInitialized);
      }
      if |ids| == 0 {
        assert MarkRows(rows, IdSet(ids)) == rows;
        return None;
      }
      var args: set<nat> := {};
      for k := 0 to |ids|
        invariant args == IdSet(ids[..k])
      {
        assert ids[..k + 1] == ids[..k] + [ids[k]];
        args := args + {ids[k]};
      }
      assert ids[..|ids|] == ids;
      if !dbOk {
        return Some(DatabaseError);
      }
      rows := MarkRows(rows, args);
      return None;
    }

    method DeleteBotLogs(botId: string, dbOk: bool) returns (r: Option<StoreError>)
      requires Valid()
      modifies `rows
      ensures Valid()
      ensures r.None? <==> initialized && dbOk
      ensures r.Some? ==> rows == old(rows)
      ensures r.None? ==> forall id :: id in rows <==> id in old(rows) && old(rows)[id].rec.botId != botId
      ensures r.None? ==> forall id :: id in rows ==> rows[id] == old(rows)[id]
    {
      if !initialized {
        return Some(NotInitialized);
      }
      if !dbOk {
        return Some(DatabaseError);
      }
      rows := DeleteRows(rows, botId);
      return None;
    }
  }
}
