/** What the delivery side of the outbox keeps: the wire against the table. */
module OutboxDelivery {
  import opened Prelude
  import opened Storage
  import opened Outbox

  /** No unsynced row has a smaller id than a synced one. */
  ghost predicate SyncedPrefix(rows: map<nat, LogEntry>) {
    forall i, j :: i in rows && j in rows && i < j && rows[j].synced ==> rows[i].synced
  }

  /** ids contains, with any of its members, every smaller unsynced row. */
  ghost predicate Downward(rows: map<nat, LogEntry>, ids: seq<nat>) {
    forall id, m :: id in rows && !rows[id].synced && m in ids && id < m ==> id in ids
  }

  ghost predicate HoldsBatch(sync: Sync) {
    sync.SSending? || sync.SWriting? || sync.SDropping?
  }

  /** The batch in hand is still the oldest unsynced rows (less deleted ones), and syncedIDs is the
      part of it handled so far. */
  ghost predicate BatchInv(encodable: Encodable, d: Delivery) {
    var rows, b, ids := d.table.rows, Batch(d.sync), Handled(d.sync);
    && WellFormed(d.table)
    && SyncedPrefix(rows)
    && SortedById(b) && |b| <= BATCH_SIZE
    && (forall k :: 0 <= k < |b| ==>
        b[k].id < d.table.nextId && (b[k].id in rows ==> rows[b[k].id] == b[k] && !b[k].synced))
    && Downward(rows, IdsOf(b))
    && Downward(rows, ids)
    && (forall id :: id in ids ==> id < d.table.nextId && (id in rows ==> !rows[id].synced))
    && Done(d.sync) <= |b|
    && (HoldsBatch(d.sync) ==> ids == IdsOf(b)[..Done(d.sync)] && b != [])
    && (d.sync.SWriting? || d.sync.SDropping? ==> d.sync.done < |b| && encodable(b[d.sync.done].rec))
  }

  /** A repeat apart, ids go over the wire in increasing order. */
  ghost predicate FirstsInOrder(wire: seq<nat>) {
    forall i, j :: 0 <= i < j < |wire| && wire[j] !in wire[..j] ==> wire[i] < wire[j]
  }

  /** The wire against the table, whatever fails. */
  ghost predicate WireInv(encodable: Encodable, d: Delivery) {
    var rows, b := d.table.rows, Batch(d.sync);
    && (forall w :: w in d.wire ==> w < d.table.nextId)
    && (forall id :: id in rows && (rows[id].synced || id in Handled(d.sync)) && encodable(rows[id].rec) ==>
        id in d.wire)
    && (forall id, w :: id in rows && encodable(rows[id].rec) && w in d.wire && id < w ==> id in d.wire)
    && (forall k, w :: Done(d.sync) <= k < |b| && encodable(b[k].rec) && b[k].id !in d.wire && w in d.wire ==>
        w < b[k].id)
    && FirstsInOrder(d.wire)
  }

  /** The ids among the entries that go out. */
  ghost function Sendable(encodable: Encodable, entries: seq<LogEntry>): seq<nat> {
    if entries == [] then []
    else
      var e := entries[|entries| - 1];
      var front := Sendable(encodable, entries[..|entries| - 1]);
      if encodable(e.rec) then front + [e.id] else front
  }

  /** The wire carries exactly the encodable ones of the entries handled so far, deleted rows and
      repetitions included; and whatever is marked or about to be has been handled. */
  ghost predicate HandledInv(encodable: Encodable, d: Delivery) {
    var rows := d.table.rows;
    && d.wire == Sendable(encodable, d.handled)
    && (forall e :: e in d.handled ==> e.id < d.table.nextId && (e.id in rows ==> rows[e.id].rec == e.rec))
    && (forall id :: id in rows && (rows[id].synced || id in Handled(d.sync)) ==> id in IdsOf(d.handled))
  }

  /** While every handled row has been marked, rows are handled in order and once. */
  ghost predicate ExactInv(d: Delivery) {
    var rows, b := d.table.rows, Batch(d.sync);
    !d.unmarked ==>
      && Increasing(IdsOf(d.handled))
      && (forall h, id :: h in IdsOf(d.handled) && id in rows && !rows[id].synced && id !in Handled(d.sync) ==> h < id)
      && (forall h, k :: h in IdsOf(d.handled) && Done(d.sync) <= k < |b| ==> h < b[k].id)
  }

  ghost predicate DeliveryInv(encodable: Encodable, d: Delivery) {
    BatchInv(encodable, d) && WireInv(encodable, d) && HandledInv(encodable, d) && ExactInv(d)
  }

  lemma InsertRowKeeps(encodable: Encodable, d: Delivery, rec: LogRecord, now: int)
    requires DeliveryInv(encodable, d)
    ensures DeliveryInv(encodable, InsertRow(d, rec, now))
  {
  }

  lemma DeleteBotKeeps(encodable: Encodable, d: Delivery, botId: string)
    requires DeliveryInv(encodable, d)
    ensures DeliveryInv(encodable, DeleteBot(d, botId))
  {
  }

  /** Moves between program points that hold nothing. */
  lemma IdleMoveKeeps(encodable: Encodable, d: Delivery, next: Sync)
    requires DeliveryInv(encodable, d)
    requires !HoldsBatch(d.sync) && !d.sync.SAbandoning? && !HoldsBatch(next) && !next.SAbandoning?
    ensures DeliveryInv(encodable, d.(sync := next))
  {
  }

  /** Moves of a pass that leave the rows handled so far alone. */
  lemma PassMoveKeeps(encodable: Encodable, d: Delivery, next: Sync)
    requires DeliveryInv(encodable, d) && HoldsBatch(d.sync)
    requires var b, k, ids := d.sync.batch, d.sync.done, d.sync.ids;
             || (k < |b| && encodable(b[k].rec) && (next == SWriting(b, k, ids) || next == SDropping(b, k, ids)))
             || next == SAbandoning(ids)
    ensures DeliveryInv(encodable, d.(sync := next))
  {
  }

  lemma QueryKeeps(encodable: Encodable, d: Delivery, batch: seq<LogEntry>)
    requires DeliveryInv(encodable, d) && d.sync == SQuerying && batch != []
    requires IsFirstUnsynced(batch, d.table.rows, BATCH_SIZE)
    ensures DeliveryInv(encodable, d.(sync := SSending(batch, 0, [])))
  {
    QueryBatch(encodable, d, batch);
    assert WireInv(encodable, d.(sync := SSending(batch, 0, [])));
  }

  lemma QueryBatch(encodable: Encodable, d: Delivery, batch: seq<LogEntry>)
    requires BatchInv(encodable, d) && d.sync == SQuerying && batch != []
    requires IsFirstUnsynced(batch, d.table.rows, BATCH_SIZE)
    ensures BatchInv(encodable, d.(sync := SSending(batch, 0, [])))
  {
    BatchIsDownward(d.table.rows, batch);
    assert IdsOf(batch)[..0] == [];
  }

  lemma BatchIsDownward(rows: map<nat, LogEntry>, batch: seq<LogEntry>)
    requires IsFirstUnsynced(batch, rows, BATCH_SIZE)
    ensures Downward(rows, IdsOf(batch))
  {
    forall id, m | id in rows && !rows[id].synced && m in IdsOf(batch) && id < m
      ensures id in IdsOf(batch)
    {
      var j :| 0 <= j < |batch| && IdsOf(batch)[j] == m;
      assert batch[j].id == m;
      var k :| 0 <= k < |batch| && batch[k].id == id;
      assert IdsOf(batch)[k] == id;
    }
  }

  lemma HandleRowKeeps(encodable: Encodable, d: Delivery, sent: bool)
    requires DeliveryInv(encodable, d) && HoldsBatch(d.sync) && d.sync.done < |d.sync.batch|
    requires sent <==> encodable(d.sync.batch[d.sync.done].rec)
    ensures DeliveryInv(encodable, HandleRow(d, sent))
  {
    HandleRowBatch(encodable, d, sent);
    HandleRowWire(encodable, d, sent);
    HandleRowHandled(encodable, d, sent);
    HandleRowExact(encodable, d, sent);
  }

  /** The ids handled are those of the first entries of the batch. */
  lemma HandledIds(encodable: Encodable, d: Delivery)
    requires BatchInv(encodable, d) && HoldsBatch(d.sync)
    ensures forall k :: 0 <= k < d.sync.done ==> d.sync.batch[k].id in d.sync.ids
    ensures forall id :: id in d.sync.ids ==> exists k :: 0 <= k < d.sync.done && d.sync.batch[k].id == id
  {
    var ids, b, n := d.sync.ids, d.sync.batch, d.sync.done;
    assert forall k :: 0 <= k < n ==> ids[k] == b[k].id;
  }

  /** Every unsynced row older than the entry at hand has been handled in this pass. */
  lemma OlderAreHandled(encodable: Encodable, d: Delivery)
    requires BatchInv(encodable, d) && HoldsBatch(d.sync) && d.sync.done < |d.sync.batch|
    ensures forall id :: id in d.table.rows && !d.table.rows[id].synced && id < d.sync.batch[d.sync.done].id ==>
            id in d.sync.ids
  {
    var b, n, rows := d.sync.batch, d.sync.done, d.table.rows;
    HandledIds(encodable, d);
    var now := IdsOf(b)[n];
    assert now in IdsOf(b);
    forall id | id in rows && !rows[id].synced && id < now
      ensures id in d.sync.ids
    {
      assert id in IdsOf(b);
      var k :| 0 <= k < |b| && IdsOf(b)[k] == id;
      assert b[k].id == id;
    }
  }

  lemma HandleRowBatch(encodable: Encodable, d: Delivery, sent: bool)
    requires BatchInv(encodable, d) && HoldsBatch(d.sync) && d.sync.done < |d.sync.batch|
    ensures BatchInv(encodable, HandleRow(d, sent))
  {
    var ids := d.sync.ids;
    var ids' := ids + [d.sync.batch[d.sync.done].id];
    assert ids' == IdsOf(d.sync.batch)[..d.sync.done + 1];
    HandledIds(encodable, d);
    OlderAreHandled(encodable, d);
  }

  lemma HandleRowWire(encodable: Encodable, d: Delivery, sent: bool)
    requires BatchInv(encodable, d) && WireInv(encodable, d) && HoldsBatch(d.sync) && d.sync.done < |d.sync.batch|
    requires sent <==> encodable(d.sync.batch[d.sync.done].rec)
    ensures WireInv(encodable, HandleRow(d, sent))
  {
    var b, n, rows, wire := d.sync.batch, d.sync.done, d.table.rows, d.wire;
    var now := b[n].id;
    HandledIds(encodable, d);
    if sent {
      var wire' := wire + [now];
      OlderAreHandled(encodable, d);
      forall i, j | 0 <= i < j < |wire'| && wire'[j] !in wire'[..j]
        ensures wire'[i] < wire'[j]
      {
        if j < |wire| {
          assert wire'[..j] == wire[..j];
        } else {
          assert wire'[..j] == wire;
          assert wire[i] in wire;
        }
      }
    }
  }

  lemma HandleRowHandled(encodable: Encodable, d: Delivery, sent: bool)
    requires BatchInv(encodable, d) && HandledInv(encodable, d) && HoldsBatch(d.sync) && d.sync.done < |d.sync.batch|
    requires sent <==> encodable(d.sync.batch[d.sync.done].rec)
    ensures HandledInv(encodable, HandleRow(d, sent))
  {
    var e := d.sync.batch[d.sync.done];
    assert (d.handled + [e])[..|d.handled|] == d.handled;
    AppendedIds(d.handled, e);
  }

  lemma AppendedIds(entries: seq<LogEntry>, e: LogEntry)
    ensures IdsOf(entries + [e]) == IdsOf(entries) + [e.id]
  {
  }

  lemma HandleRowExact(encodable: Encodable, d: Delivery, sent: bool)
    requires BatchInv(encodable, d) && ExactInv(d) && HoldsBatch(d.sync) && d.sync.done < |d.sync.batch|
    ensures ExactInv(HandleRow(d, sent))
  {
    var b, n := d.sync.batch, d.sync.done;
    AppendedIds(d.handled, b[n]);
    OlderAreHandled(encodable, d);
    var ids := IdsOf(d.handled);
    assert forall i :: 0 <= i < |ids| ==> ids[i] in ids;
  }

  lemma MarkHandledKeeps(encodable: Encodable, d: Delivery, ok: bool, next: Sync)
    requires DeliveryInv(encodable, d) && !HoldsBatch(next) && !next.SAbandoning?
    ensures DeliveryInv(encodable, MarkHandled(d, ok, next))
  {
    MarkHandledBatch(encodable, d, ok, next);
    MarkHandledWire(encodable, d, ok, next);
    MarkHandledHandled(encodable, d, ok, next);
    MarkHandledExact(d, ok, next);
  }

  lemma MarkHandledBatch(encodable: Encodable, d: Delivery, ok: bool, next: Sync)
    requires BatchInv(encodable, d) && !HoldsBatch(next) && !next.SAbandoning?
    ensures BatchInv(encodable, MarkHandled(d, ok, next))
  {
  }

  lemma MarkHandledWire(encodable: Encodable, d: Delivery, ok: bool, next: Sync)
    requires WireInv(encodable, d) && !HoldsBatch(next) && !next.SAbandoning?
    ensures WireInv(encodable, MarkHandled(d, ok, next))
  {
  }

  lemma MarkHandledHandled(encodable: Encodable, d: Delivery, ok: bool, next: Sync)
    requires HandledInv(encodable, d) && !HoldsBatch(next) && !next.SAbandoning?
    ensures HandledInv(encodable, MarkHandled(d, ok, next))
  {
  }

  lemma MarkHandledExact(d: Delivery, ok: bool, next: Sync)
    requires ExactInv(d) && !HoldsBatch(next) && !next.SAbandoning?
    ensures ExactInv(MarkHandled(d, ok, next))
  {
  }

  lemma RestartDeliveryKeeps(encodable: Encodable, d: Delivery)
    requires DeliveryInv(encodable, d)
    ensures DeliveryInv(encodable, RestartDelivery(d))
  {
  }

  lemma {:induction false} SendableIds(encodable: Encodable, entries: seq<LogEntry>)
    ensures forall w :: w in Sendable(encodable, entries) <==>
              exists k :: 0 <= k < |entries| && entries[k].id == w && encodable(entries[k].rec)
  {
    if entries != [] {
      var n := |entries| - 1;
      SendableIds(encodable, entries[..n]);
      assert forall k :: 0 <= k < n ==> entries[..n][k] == entries[k];
    }
  }

  lemma {:induction false} SendableIncreasing(encodable: Encodable, entries: seq<LogEntry>)
    requires Increasing(IdsOf(entries))
    ensures Increasing(Sendable(encodable, entries))
  {
    if entries != [] {
      var n := |entries| - 1;
      assert IdsOf(entries[..n]) == IdsOf(entries)[..n];
      SendableIncreasing(encodable, entries[..n]);
      SendableIds(encodable, entries[..n]);
      var front := Sendable(encodable, entries[..n]);
      forall i | 0 <= i < |front|
        ensures front[i] < entries[n].id
      {
        assert front[i] in front;
        var k :| 0 <= k < n && entries[..n][k].id == front[i];
        assert IdsOf(entries)[k] < IdsOf(entries)[n];
      }
    }
  }
}
