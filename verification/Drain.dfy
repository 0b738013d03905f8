/** syncUnsyncedLogs of internal/connection/manager.go, run as one call over a Store, with every
    store call, link check and socket write free to fail. Concurrent appends are the business of
    module Outbox. */
module Drain {
  import opened Prelude
  import opened Storage

  const BATCH_SIZE := 100

  datatype SyncError = NotConnected | WriteFailed | StoreFailed(error: StoreError)

  /** What the surroundings answer: the n-th look at (connected, conn), query, socket write, update. */
  datatype World = World(linkUp: nat -> bool, queryOk: nat -> bool, writeOk: nat -> bool, markOk: nat -> bool)

  /** json.Marshal of a stored row; None for a row whose data is not JSON. */
  type Encoder = (LogRecord, int) -> Option<string>

  /** The frames a run of rows puts on the wire: one for each row that can be encoded, in order. */
  function Frames(encode: Encoder, entries: seq<LogEntry>): seq<string> {
    if entries == [] then []
    else
      var e := entries[|entries| - 1];
      var front := Frames(encode, entries[..|entries| - 1]);
      match encode(e.rec, e.createdAt)
      case Some(frame) => front + [frame]
      case None => front
  }

  ghost predicate NoFaults(w: World) {
    && (forall n :: w.linkUp(n))
    && (forall n :: w.queryOk(n))
    && (forall n :: w.writeOk(n))
    && (forall n :: w.markOk(n))
  }

  ghost predicate MarksSucceed(w: World) {
    forall n :: w.markOk(n)
  }

  predicate LinkError(err: Option<SyncError>) {
    err == Some(NotConnected) || err == Some(WriteFailed)
  }

  /** A failed write calls handleDisconnect, nothing else here does. */
  function Drops(err: Option<SyncError>): nat {
    if err == Some(WriteFailed) then 1 else 0
  }

  /** How far one call got. `handled` rows were sent or skipped as unencodable, `marked` rows were
      marked, and `queries` batches were asked for. */
  datatype Progress = Progress(queries: nat, handled: nat, marked: nat)

  /** The table in which exactly the first m unsynced rows of `before` have been marked. */
  ghost predicate MarkedTo(before: Table, now: Table, m: nat) {
    var u := Unsynced(before);
    && WellFormed(before)
    && m <= |u|
    && now == before.(rows := MarkRows(before.rows, IdSet(IdsOf(u[..m]))))
    && Unsynced(now) == u[m..]
  }

  /** The wire has grown from wire0 to wire by the frames of the first n rows of u. */
  ghost predicate Sent(encode: Encoder, u: seq<LogEntry>, n: nat, wire0: seq<string>, wire: seq<string>) {
    n <= |u| && wire == wire0 + Frames(encode, u[..n])
  }

  /** What a call that returned err has handled and marked of the unsynced rows u it started with. */
  ghost predicate Outcome(encode: Encoder, u: seq<LogEntry>, err: Option<SyncError>, p: Progress) {
    && p.marked <= p.handled <= |u|
    && match err
       case None =>
         p.handled == p.marked == |u| && p.queries > 0 && BATCH_SIZE * (p.queries - 1) <= |u| < BATCH_SIZE * p.queries
       case Some(NotConnected) =>
         || p.handled == p.marked == BATCH_SIZE * p.queries
         || StoppedAtRow(encode, u, p)
       case Some(WriteFailed) =>
         StoppedAtRow(encode, u, p)
       case Some(StoreFailed(_)) =>
         && p.queries > 0
         && p.marked == BATCH_SIZE * (p.queries - 1)
         && (p.handled == p.marked || p.handled == Min(BATCH_SIZE * p.queries, |u|))
  }

  /** The call stopped at row u[handled], which it could encode but not send. */
  ghost predicate StoppedAtRow(encode: Encoder, u: seq<LogEntry>, p: Progress) {
    && p.queries > 0
    && BATCH_SIZE * (p.queries - 1) <= p.handled < |u|
    && p.handled < BATCH_SIZE * p.queries
    && encode(u[p.handled].rec, u[p.handled].createdAt).Some?
    && (p.marked == p.handled || p.marked == BATCH_SIZE * (p.queries - 1))
  }

  function Min(a: nat, b: nat): nat {
    if a < b then a else b
  }

  lemma FramesAppend(encode: Encoder, a: seq<LogEntry>, e: LogEntry)
    ensures Frames(encode, a + [e]) ==
            match encode(e.rec, e.createdAt)
            case Some(frame) => Frames(encode, a) + [frame]
            case None => Frames(encode, a)
  {
    assert (a + [e])[..|a|] == a;
  }

  lemma OneMore(encode: Encoder, entries: seq<LogEntry>, i: nat)
    requires i < |entries|
    ensures IdsOf(entries[..i + 1]) == IdsOf(entries[..i]) + [entries[i].id]
    ensures Frames(encode, entries[..i + 1]) ==
            match encode(entries[i].rec, entries[i].createdAt)
            case Some(frame) => Frames(encode, entries[..i]) + [frame]
            case None => Frames(encode, entries[..i])
  {
    FramesAppend(encode, entries[..i], entries[i]);
    assert entries[..i + 1] == entries[..i] + [entries[i]];
  }

  /** Marking two successive runs of rows is marking both at once. */
  lemma MarkTwice(rows: map<nat, LogEntry>, u: seq<LogEntry>, m: nat, k: nat)
    requires m + k <= |u|
    ensures MarkRows(MarkRows(rows, IdSet(IdsOf(u[..m]))), IdSet(IdsOf(u[m..][..k])))
            == MarkRows(rows, IdSet(IdsOf(u[..m + k])))
  {
    var a, b, c := IdsOf(u[..m]), IdsOf(u[m..][..k]), IdsOf(u[..m + k]);
    assert c == a + b;
    assert IdSet(c) == IdSet(a) + IdSet(b);
  }

  class LogSync {
    const store: Store?
    const encode: Encoder
    const world: World
    var wire: seq<string>   // frames written successfully, oldest first
    var clock: nat          // number of interactions with the surroundings so far
    var drops: nat          // handleDisconnect calls made so far

    constructor (store: Store?, encode: Encoder, world: World)
      ensures this.store == store && this.encode == encode && this.world == world && wire == [] && drops == 0
    {
      this.store := store;
      this.encode := encode;
      this.world := world;
      wire := [];
      clock := 0;
      drops := 0;
    }

    method IsConnected() returns (up: bool)
      modifies `clock
      ensures up == world.linkUp(old(clock))
    {
      up := world.linkUp(clock);
      clock := clock + 1;
    }

    method WriteDirect(payload: string) returns (err: Option<SyncError>)
      modifies `clock, `wire, `drops
      ensures drops == old(drops) + Drops(err)
      ensures err.None? || LinkError(err)
      ensures wire == if err.None? then old(wire) + [payload] else old(wire)
      ensures NoFaults(world) ==> err.None?
    {
      var up := IsConnected();
      if !up {
        return Some(NotConnected);
      }
      var ok := world.writeOk(clock);
      clock := clock + 1;
      if !ok {
        drops := drops + 1;
        return Some(WriteFailed);
      }
      wire := wire + [payload];
      return None;
    }

    /** The inner loop: sends a batch row by row and collects the ids to mark, up to the first failed write. */
    method SendBatch(entries: seq<LogEntry>) returns (err: Option<SyncError>, syncedIds: seq<nat>)
      modifies `clock, `wire, `drops
      ensures drops == old(drops) + Drops(err)
      ensures err.None? || LinkError(err)
      ensures |syncedIds| <= |entries| && syncedIds == IdsOf(entries[..|syncedIds|])
      ensures wire == old(wire) + Frames(encode, entries[..|syncedIds|])
      ensures err.None? ==> |syncedIds| == |entries|
      ensures err.Some? ==>
                (|syncedIds| < |entries| && var e := entries[|syncedIds|]; encode(e.rec, e.createdAt).Some?)
      ensures NoFaults(world) ==> err.None?
    {
      err, syncedIds := None, [];
      for i := 0 to |entries|
        invariant err.None? && syncedIds == IdsOf(entries[..i]) && drops == old(drops)
        invariant wire == old(wire) + Frames(encode, entries[..i])
      {
        var entry := entries[i];
        OneMore(encode, entries, i);
        var payload := encode(entry.rec, entry.createdAt);
        if payload.Some? {
          err := WriteDirect(payload.value);
          if err.Some? {
            return;
          }
        }
        syncedIds := syncedIds + [entry.id];
      }
      assert entries[..|entries|] == entries;
    }

    /** Marks the rows handled so far; a failed update marks none. */
    method MarkHandled(store: Store, ids: seq<nat>, ghost before: Table, ghost m: nat, ghost entries: seq<LogEntry>)
      returns (err: Option<StoreError>, ghost marked: nat)
      requires store.Valid() && MarkedTo(before, store.Contents(), m)
      requires |ids| <= |entries| && ids == IdsOf(entries[..|ids|])
      requires m + |entries| <= |Unsynced(before)| && entries <= Unsynced(before)[m..]
      modifies `clock, store`rows
      ensures store.Valid() && MarkedTo(before, store.Contents(), marked)
      ensures marked == if err.None? then m + |ids| else m
      ensures MarksSucceed(world) && store.initialized ==> err.None?
    {
      ghost var now := store.Contents();
      var markOk := world.markOk(clock);
      clock := clock + 1;
      err := store.MarkLogsSynced(ids, markOk);
      marked := m;
      if err.None? {
        MarkedFurther(before, now, m, entries, ids, store.Contents());
        marked := m + |ids|;
      }
    }

    /** The second half of a turn of the outer loop: send the batch, then mark what was handled. */
    method SendAndMark(store: Store, entries: seq<LogEntry>, ghost before: Table, ghost p: Progress,
                       ghost wire0: seq<string>)
      returns (err: Option<SyncError>, ghost p': Progress)
      requires store.Valid() && MarkedTo(before, store.Contents(), p.marked)
      requires p.handled + |entries| <= |Unsynced(before)| && entries <= Unsynced(before)[p.handled..]
      requires p.handled == p.marked && Sent(encode, Unsynced(before), p.handled, wire0, wire)
      modifies `clock, `wire, `drops, store`rows
      ensures store.Valid() && MarkedTo(before, store.Contents(), p'.marked)
      ensures Sent(encode, Unsynced(before), p'.handled, wire0, wire)
      ensures drops == old(drops) + Drops(err)
      ensures Turn(encode, Unsynced(before), |entries|, p, err, p')
      ensures NoFaults(world) && store.initialized ==> err.None?
      ensures MarksSucceed(world) && store.initialized ==> p'.marked == p'.handled
    {
      var syncedIds;
      err, syncedIds := SendBatch(entries);
      ghost var k := |syncedIds|;
      BatchSent(encode, Unsynced(before), p.handled, entries, k, wire0, old(wire), wire);
      var markError;
      ghost var marked;
      markError, marked := MarkHandled(store, syncedIds, before, p.marked, entries);
      p' := Progress(p.queries, p.handled + k, marked);
      if err.None? && markError.Some? {
        err := Some(StoreFailed(markError.value));
      }
    }

    /** One turn of the outer loop: look, query, send, mark. `more` asks for another turn. */
    method DrainBatch(store: Store, ghost before: Table, ghost p: Progress, ghost wire0: seq<string>)
      returns (err: Option<SyncError>, more: bool, ghost p': Progress)
      requires store.Valid() && MarkedTo(before, store.Contents(), p.marked)
      requires p.handled == p.marked == BATCH_SIZE * p.queries && Sent(encode, Unsynced(before), p.handled, wire0, wire)
      modifies `clock, `wire, `drops, store`rows, store`asked
      ensures store.Valid() && MarkedTo(before, store.Contents(), p'.marked)
      ensures Sent(encode, Unsynced(before), p'.handled, wire0, wire)
      ensures p'.queries == p.queries + if err == Some(NotConnected) && p' == p then 0 else 1
      ensures store.asked == old(store.asked) + p'.queries - p.queries
      ensures drops == old(drops) + Drops(err)
      ensures more ==> err.None? && p'.handled == p'.marked == BATCH_SIZE * p'.queries && p'.marked > p.marked
      ensures !more ==> Outcome(encode, Unsynced(before), err, p')
      ensures NoFaults(world) && store.initialized ==> err.None?
      ensures MarksSucceed(world) && store.initialized && LinkError(err) ==> p'.marked == p'.handled
    {
      err, more, p' := None, false, p;
      var up := IsConnected();
      if !up {
        err := Some(NotConnected);
        return;
      }
      var queryOk := world.queryOk(clock);
      clock := clock + 1;
      var answer := store.GetUnsyncedLogs(BATCH_SIZE, queryOk);
      p' := p'.(queries := p.queries + 1);
      if answer.Err? {
        err := Some(StoreFailed(answer.error));
        return;
      }
      var entries := answer.value;
      NextBatch(before, store.Contents(), p.marked, entries);
      if |entries| == 0 {
        return;
      }
      ghost var q := p';
      err, p' := SendAndMark(store, entries, before, q, wire0);
      TurnOutcome(encode, Unsynced(before), |entries|, q, err, p');
      more := err.None? && |entries| >= BATCH_SIZE;
    }

    /** The outer loop. */
    method DrainStore(store: Store) returns (err: Option<SyncError>, ghost p: Progress)
      requires store.Valid()
      modifies `clock, `wire, `drops, store`rows, store`asked
      ensures store.Valid()
      ensures store.asked == old(store.asked) + p.queries
      ensures drops == old(drops) + Drops(err)
      ensures MarkedTo(old(store.Contents()), store.Contents(), p.marked)
      ensures Outcome(encode, old(Unsynced(store.Contents())), err, p)
      ensures Sent(encode, old(Unsynced(store.Contents())), p.handled, old(wire), wire)
      ensures NoFaults(world) && store.initialized ==> err.None?
      ensures MarksSucceed(world) && store.initialized && LinkError(err) ==> p.marked == p.handled
    {
      p := Progress(0, 0, 0);
      err := None;
      ghost var before, wire0 := store.Contents(), wire;
      NothingMarked(before);
      var more := true;
      while more
        invariant store.Valid()
        invariant store.asked == old(store.asked) + p.queries
        invariant drops == old(drops) + Drops(err)
        invariant MarkedTo(before, store.Contents(), p.marked)
        invariant Sent(encode, Unsynced(before), p.handled, wire0, wire)
        invariant if more then err.None? && p.handled == p.marked == BATCH_SIZE * p.queries
                  else Outcome(encode, Unsynced(before), err, p)
        invariant NoFaults(world) && store.initialized ==> err.None?
        invariant MarksSucceed(world) && store.initialized && LinkError(err) ==> p.marked == p.handled
        decreases more, |Unsynced(before)| - p.marked
      {
        err, more, p := DrainBatch(store, before, p, wire0);
      }
    }

    /** Returns nil only with nothing left to sync, after one query per started hundred of rows and one
        more if the last batch was full; otherwise Outcome says where it stopped. Whatever
        happens, the rows marked are a prefix of the unsynced rows and the frames written are those
        of a prefix, in id order, each row at most once. */
    method SyncUnsyncedLogs() returns (err: Option<SyncError>, ghost p: Progress)
      requires store != null ==> store.Valid()
      modifies `clock, `wire, `drops, if store == null then {} else {store}
      ensures drops == old(drops) + Drops(err)
      ensures store == null ==> err.None? && wire == old(wire)
      ensures store != null ==>
                && store.asked == old(store.asked) + p.queries
                && (err.None? ==> store.asked == old(store.asked) + |old(Unsynced(store.Contents()))| / BATCH_SIZE + 1)
                && store.Valid()
                && MarkedTo(old(store.Contents()), store.Contents(), p.marked)
                && Outcome(encode, old(Unsynced(store.Contents())), err, p)
                && Sent(encode, old(Unsynced(store.Contents())), p.handled, old(wire), wire)
                && (NoFaults(world) && store.initialized ==> err.None?)
                && (MarksSucceed(world) && store.initialized && LinkError(err) ==> p.marked == p.handled)
    {
      if store == null {
        return None, Progress(0, 0, 0);
      }
      ghost var u := Unsynced(store.Contents());
      err, p := DrainStore(store);
      if err.None? {
        QueryCount(encode, u, p);
      }
    }
  }

  /** Sending a batch of n rows of u took the call from p to p'. */
  ghost predicate Turn(encode: Encoder, u: seq<LogEntry>, n: nat, p: Progress, err: Option<SyncError>, p': Progress) {
    && p'.queries == p.queries && p.handled + n <= |u|
    && p.handled <= p'.handled <= |u|
    && (if err.None? then p'.marked == p'.handled else p'.marked in {p.marked, p'.handled})
    && if LinkError(err)
       then p'.handled < p.handled + n && encode(u[p'.handled].rec, u[p'.handled].createdAt).Some?
       else p'.handled == p.handled + n && (err.Some? ==> p'.marked == p.marked)
  }

  lemma TurnOutcome(encode: Encoder, u: seq<LogEntry>, n: nat, p: Progress, err: Option<SyncError>, p': Progress)
    requires Turn(encode, u, n, p, err, p') && p.queries > 0
    requires p.handled == p.marked == BATCH_SIZE * (p.queries - 1)
    requires 0 < n <= BATCH_SIZE && p.handled + n <= |u| && (n < BATCH_SIZE ==> p.handled + n == |u|)
    ensures if err.None? && n == BATCH_SIZE
            then p'.handled == p'.marked == BATCH_SIZE * p'.queries && p'.marked > p.marked
            else Outcome(encode, u, err, p')
  {
  }

  lemma NextBatch(before: Table, now: Table, m: nat, entries: seq<LogEntry>)
    requires WellFormed(now) && MarkedTo(before, now, m)
    requires IsFirstUnsynced(entries, now.rows, BATCH_SIZE)
    ensures m + |entries| <= |Unsynced(before)| && entries <= Unsynced(before)[m..]
    ensures |entries| <= BATCH_SIZE
    ensures |entries| < BATCH_SIZE ==> m + |entries| == |Unsynced(before)|
  {
    BatchIsPrefixOfUnsynced(now, BATCH_SIZE, entries);
  }

  lemma {:induction false} FramesOfBatch(encode: Encoder, u: seq<LogEntry>, m: nat, entries: seq<LogEntry>, k: nat)
    requires k <= |entries| && m + |entries| <= |u| && entries <= u[m..]
    ensures Frames(encode, u[..m + k]) == Frames(encode, u[..m]) + Frames(encode, entries[..k])
  {
    if k > 0 {
      FramesOfBatch(encode, u, m, entries, k - 1);
      OneMore(encode, entries, k - 1);
      OneMore(encode, u, m + k - 1);
      assert u[m + k - 1] == u[m..][k - 1] == entries[k - 1];
      assert u[..m + (k - 1)] == u[..m + k - 1];
    } else {
      assert u[..m + k] == u[..m];
    }
  }

  lemma BatchSent(encode: Encoder, u: seq<LogEntry>, h: nat, entries: seq<LogEntry>, k: nat,
                  wire0: seq<string>, wire1: seq<string>, wire2: seq<string>)
    requires k <= |entries| && h + |entries| <= |u| && entries <= u[h..]
    requires Sent(encode, u, h, wire0, wire1) && wire2 == wire1 + Frames(encode, entries[..k])
    ensures Sent(encode, u, h + k, wire0, wire2)
    ensures k < |entries| ==> entries[k] == u[h + k]
  {
    FramesOfBatch(encode, u, h, entries, k);
    assert k < |entries| ==> entries[k] == u[h..][k];
  }

  lemma NothingMarked(before: Table)
    requires WellFormed(before)
    ensures MarkedTo(before, before, 0)
  {
    assert MarkRows(before.rows, IdSet(IdsOf(Unsynced(before)[..0]))) == before.rows;
  }

  /** Marking the first rows of the next batch moves the mark forward. */
  lemma MarkedFurther(before: Table, now: Table, m: nat, entries: seq<LogEntry>, ids: seq<nat>, now': Table)
    requires MarkedTo(before, now, m)
    requires |ids| <= |entries| && ids == IdsOf(entries[..|ids|])
    requires m + |entries| <= |Unsynced(before)| && entries <= Unsynced(before)[m..]
    requires now' == now.(rows := MarkRows(now.rows, IdSet(ids)))
    ensures MarkedTo(before, now', m + |ids|)
  {
    assert entries[..|ids|] == Unsynced(before)[m..][..|ids|];
    MarkTwice(before.rows, Unsynced(before), m, |ids|);
    MarkPrefix(before, m + |ids|);
  }

  /** The queries of a call that has handled everything. */
  lemma QueryCount(encode: Encoder, u: seq<LogEntry>, p: Progress)
    requires Outcome(encode, u, None, p)
    ensures p.queries == |u| / BATCH_SIZE + 1
  {
  }

  /** Frames is what the name says: row k, if it can be encoded, is frame number
      "encodable rows before k", and there are no other frames. */
  lemma {:induction false} FrameOfRow(encode: Encoder, u: seq<LogEntry>, k: nat)
    requires k < |u|
    ensures var at := |Frames(encode, u[..k])|;
            match encode(u[k].rec, u[k].createdAt)
            case Some(frame) => at < |Frames(encode, u)| && Frames(encode, u)[at] == frame
              && |Frames(encode, u[..k + 1])| == at + 1
            case None => |Frames(encode, u[..k + 1])| == at
  {
    OneMore(encode, u, k);
    FramesPrefix(encode, u, k + 1);
  }

  lemma {:induction false} FramesPrefix(encode: Encoder, u: seq<LogEntry>, k: nat)
    requires k <= |u|
    ensures Frames(encode, u[..k]) <= Frames(encode, u)
  {
    if k == |u| {
      assert u[..k] == u;
    } else {
      FramesPrefix(encode, u[..|u| - 1], k);
      assert u[..|u| - 1][..k] == u[..k];
    }
  }
}
