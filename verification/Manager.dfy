/** The connection manager's methods as one goroutine runs them without interruption, on the manager's
    own fields. Lemmas named ...IsStep and ...IsRun show that what a method does is a step or a run of
    the machine of module SendQueue, Outbox, Generations or Composition. */
module Manager {
  import opened Prelude
  import G = Generations
  import GenerationsRuns
  import SQ = SendQueue
  import O = Outbox
  import OutboxIntake
  import OutboxRuns
  import C = Composition
  import opened Storage

  datatype SendError = Canceled | NotConnected | QueueFull | WriteFailed | MarshalFailed

  /** The outcome of Send and SendLog, after the checks in the order the code makes them. ctxWins is the
      select's choice when both the context and the channel are ready. */
  function SendOutcome(closed: bool, hasCtx: bool, needsConn: bool, connected: bool, live: bool, space: bool,
                       ctxWins: bool)
    : Option<SendError>
  {
    if closed then Some(Canceled)
    else if !hasCtx || (needsConn && !connected) then Some(NotConnected)
    else if !live && (ctxWins || !space) then Some(Canceled)
    else if space then None
    else Some(QueueFull)
  }

  /** All of handleDisconnect at once. */
  function Disconnected(l: G.Link): G.Link {
    if l.connected
    then G.CloseOnce(G.CloseGen(G.CancelGen(G.Detached(l), l.connCancel), l.conn), l.connDoneOnce, l.connDone)
    else G.Detached(l)
  }

  /** All of Close at once, as far as the connection goes. */
  function Shut(l: G.Link): G.Link {
    G.CloseOnce(G.CloseGen(l, l.conn), l.connDoneOnce, l.connDone)
  }

  class ConnectionManager {
    var started: bool             // ctx != nil
    var live: bool
    var closed: bool
    var connected: bool
    var conn: Option<nat>
    var connCancel: Option<nat>
    var connDone: Option<nat>
    var connDoneOnce: Option<nat>
    var gens: seq<G.Gen>          // the sockets, cancel functions, channels and onces made so far
    var sendCh: seq<string>
    var logCh: seq<LogRecord>
    var logSyncCh: bool

    function LinkOf(): G.Link
      reads this
    {
      G.Link(connected, conn, connCancel, connDone, connDoneOnce, gens)
    }

    constructor ()
      ensures !started && !closed && LinkOf() == G.INITIAL.link && sendCh == [] && logCh == [] && !logSyncCh
    {
      started, live, closed := false, false, false;
      connected, conn, connCancel, connDone, connDoneOnce, gens := false, None, None, None, None, [];
      sendCh, logCh, logSyncCh := [], [], false;
    }

    method Send(msg: string, ctxWins: bool) returns (err: Option<SendError>)
      modifies `sendCh
      ensures err == SendOutcome(closed, started, true, connected, live, |old(sendCh)| < SQ.SEND_BUFFER_SIZE, ctxWins)
      ensures err.None? <==>
                !closed && started && connected && |old(sendCh)| < SQ.SEND_BUFFER_SIZE && (live || !ctxWins)
      ensures err == Some(QueueFull) <==>
                !closed && started && connected && live && |old(sendCh)| >= SQ.SEND_BUFFER_SIZE
      ensures err == Some(NotConnected) <==> !closed && (!started || !connected)
      ensures sendCh == if err.None? then old(sendCh) + [msg] else old(sendCh)
    {
      if closed {
        return Some(Canceled);
      }
      if !started {
        return Some(NotConnected);
      }
      if !connected {
        return Some(NotConnected);
      }
      var space := |sendCh| < SQ.SEND_BUFFER_SIZE;
      if !live && (ctxWins || !space) {
        return Some(Canceled);
      }
      if !space {
        return Some(QueueFull);
      }
      sendCh := sendCh + [msg];
      return None;
    }

    method SendLog(entry: LogRecord, marshalOk: bool, ctxWins: bool) returns (err: Option<SendError>)
      modifies `logCh
      ensures err == if !marshalOk then Some(MarshalFailed)
                     else SendOutcome(closed, started, false, connected, live, |old(logCh)| < O.LOG_BUFFER_SIZE,
                                      ctxWins)
      ensures err.None? <==>
                marshalOk && !closed && started && |old(logCh)| < O.LOG_BUFFER_SIZE && (live || !ctxWins)
      ensures err == Some(QueueFull) <==>
                marshalOk && !closed && started && live && |old(logCh)| >= O.LOG_BUFFER_SIZE
      ensures err == Some(NotConnected) <==> marshalOk && !closed && !started
      ensures logCh == if err.None? then old(logCh) + [entry] else old(logCh)
    {
      if !marshalOk {
        return Some(MarshalFailed);
      }
      if closed {
        return Some(Canceled);
      }
      if !started {
        return Some(NotConnected);
      }
      var space := |logCh| < O.LOG_BUFFER_SIZE;
      if !live && (ctxWins || !space) {
        return Some(Canceled);
      }
      if !space {
        return Some(QueueFull);
      }
      logCh := logCh + [entry];
      return None;
    }

    /** A send to a one-slot channel that is dropped when the slot is taken. */
    method SignalLogSync()
      modifies `logSyncCh
      ensures logSyncCh
    {
      if !logSyncCh {
        logSyncCh := true;
      }
    }

    /** dialOk: dialling and authentication succeed. */
    method ConnectOnce(dialOk: bool) returns (ok: bool)
      modifies this
      ensures ok == (started && dialOk)
      ensures started == old(started) && live == old(live) && closed == old(closed) && sendCh == old(sendCh)
              && logCh == old(logCh)
      ensures LinkOf() == if ok then G.InstallGen(old(LinkOf())) else old(LinkOf())
      ensures logSyncCh == (ok || old(logSyncCh))
    {
      if !started {
        return false;
      }
      if !dialOk {
        return false;
      }
      var g := |gens|;
      gens := gens + [G.NewGen()];
      conn := Some(g);
      connected := true;
      connCancel := Some(g);
      connDone := Some(g);
      connDoneOnce := Some(g);
      SignalLogSync();
      return true;
    }

    method CancelConn(g: nat)
      modifies `gens
      ensures gens == G.CancelGen(old(LinkOf()), Some(g)).gens
    {
      if g < |gens| {
        gens := gens[g := gens[g].(cancelled := true)];
      }
    }

    method CloseConn(g: nat)
      modifies `gens
      ensures gens == G.CloseGen(old(LinkOf()), Some(g)).gens
    {
      if g < |gens| {
        gens := gens[g := gens[g].(open := false)];
      }
    }

    /** once.Do(func() { close(done) }) */
    method DoOnce(once: nat, done: nat)
      modifies `gens
      ensures gens == G.CloseOnce(old(LinkOf()), Some(once), Some(done)).gens
    {
      if once < |gens| && !gens[once].onceFired {
        gens := gens[once := gens[once].(onceFired := true)];
        if done < |gens| {
          gens := gens[done := gens[done].(doneCloses := gens[done].doneCloses + 1)];
        }
      }
    }

    method HandleDisconnect()
      modifies `connected, `conn, `connCancel, `gens
      ensures LinkOf() == Disconnected(old(LinkOf()))
    {
      var cancel, socket, done, once, wasConnected := connCancel, conn, connDone, connDoneOnce, connected;
      connected := false;
      conn := None;
      connCancel := None;
      if !wasConnected {
        return;
      }
      if cancel.Some? {
        CancelConn(cancel.value);
      }
      if socket.Some? {
        CloseConn(socket.value);
      }
      if once.Some? && done.Some? {
        DoOnce(once.value, done.value);
      }
    }

    method Close()
      modifies `closed, `live, `gens
      ensures closed
      ensures old(closed) ==> live == old(live) && LinkOf() == old(LinkOf())
      ensures !old(closed) ==> live == (old(live) && !started) && LinkOf() == Shut(old(LinkOf()))
    {
      if closed {
        return;
      }
      closed := true;
      var socket, done, once := conn, connDone, connDoneOnce;
      if started {
        live := false;
      }
      if socket.Some? {
        CloseConn(socket.value);
      }
      if once.Some? && done.Some? {
        DoOnce(once.value, done.value);
      }
    }

    method IsConnected() returns (up: bool)
      ensures up == (connected && conn.Some?)
    {
      up := connected && conn.Some?;
    }

    /** writeOk: whether the socket takes the frame. */
    method WriteDirect(writeOk: bool) returns (err: Option<SendError>)
      modifies `connected, `conn, `connCancel, `gens
      ensures err == if !old(connected) || old(conn).None? then Some(NotConnected) else if writeOk then None
              else Some(WriteFailed)
      ensures LinkOf() == if old(connected) && old(conn).Some? && !writeOk then Disconnected(old(LinkOf()))
              else old(LinkOf())
    {
      var up := IsConnected();
      if !up {
        return Some(NotConnected);
      }
      if !writeOk {
        HandleDisconnect();
        return Some(WriteFailed);
      }
      return None;
    }
  }

  // ---------------------------------------------------------------------------------------------
  // The methods and the machines
  // ---------------------------------------------------------------------------------------------

  /** The contents of sendCh. */
  function QueuedMessages(s: SQ.State): seq<string>
    requires forall k :: k in s.sendCh ==> k < |s.accepted|
  {
    seq(|s.sendCh|, j requires 0 <= j < |s.sendCh| => assert s.sendCh[j] in s.sendCh; s.accepted[s.sendCh[j]])
  }

  /** A Send that returns nil is the queue machine's Send; and it returns nil exactly if that is possible, the
      manager is started, connected and not closed, and a cancelled context does not win the select. */
  lemma SendIsStep(s: SQ.State, msg: string, closed: bool, ctxWins: bool)
    requires SQ.Reachable(s)
    ensures forall k :: k in s.sendCh ==> k < |s.accepted|
    ensures var space := |QueuedMessages(s)| < SQ.SEND_BUFFER_SIZE;
            var err := SendOutcome(closed, s.links.started, true, s.links.link.connected, s.links.live, space, ctxWins);
            && (err.None? <==>
                  && SQ.Enabled(s, SQ.Send(msg)) && !closed && s.links.started && s.links.link.connected
                  && (s.links.live || !ctxWins))
            && (err.None? ==>
                  var s' := SQ.Apply(s, SQ.Send(msg));
                  && (forall k :: k in s'.sendCh ==> k < |s'.accepted|)
                  && QueuedMessages(s') == QueuedMessages(s) + [msg]
                  && s'.accepted == s.accepted + [msg] && s'.links == s.links)
  {
    SQ.ReachableInv(s);
    forall k | k in s.sendCh
      ensures k < |s.accepted|
    {
      var j :| 0 <= j < |s.sendCh| && s.sendCh[j] == k;
    }
  }

  /** The contents of logCh. */
  function QueuedRecords(i: O.Intake): seq<LogRecord>
    requires forall k :: k in i.logCh ==> k < |i.calls|
  {
    seq(|i.logCh|, j requires 0 <= j < |i.logCh| => assert i.logCh[j] in i.logCh; i.calls[i.logCh[j]].rec)
  }

  /** SendLog is the outbox's acceptance when it returns nil and its rejection otherwise, and that step is
      possible whenever SendLog returns so. */
  lemma SendLogIsStep(encodable: O.Encodable, s: O.State, rec: LogRecord, marshalOk: bool, closed: bool,
                      started: bool, ctxWins: bool)
    requires OutboxRuns.Reachable(encodable, s)
    ensures forall k :: k in s.intake.logCh ==> k < |s.intake.calls|
    ensures var queue := QueuedRecords(s.intake);
            var err := if !marshalOk then Some(MarshalFailed)
                       else SendOutcome(closed, started, false, s.connected, s.live, |queue| < O.LOG_BUFFER_SIZE,
                                        ctxWins);
            var a := if err.None? then O.EmitAccept(rec) else O.EmitReject(rec, !marshalOk || closed || !started);
            && O.Enabled(s, a)
            && var i' := O.Apply(encodable, s, a).intake;
               && (forall k :: k in i'.logCh ==> k < |i'.calls|)
               && QueuedRecords(i') == (if err.None? then queue + [rec] else queue)
               && i'.accepted == s.intake.accepted + (if err.None? then [|s.intake.calls|] else [])
  {
    OutboxRuns.ReachableInv(encodable, s);
    QueuedCallsExist(s.intake);
    AcceptAppends(s.intake, rec);
    RejectQueuesNothing(s.intake, rec);
  }

  lemma QueuedCallsExist(i: O.Intake)
    requires OutboxIntake.QueueInv(i)
    ensures forall k :: k in i.logCh ==> k < |i.calls|
  {
    OutboxRuns.QueueSlots(i);
    forall k | k in i.logCh
      ensures k < |i.calls|
    {
      var j :| 0 <= j < |i.logCh| && i.logCh[j] == k;
    }
  }

  lemma AcceptAppends(i: O.Intake, rec: LogRecord)
    requires forall k :: k in i.logCh ==> k < |i.calls|
    ensures forall k :: k in O.Accept(i, rec).logCh ==> k < |O.Accept(i, rec).calls|
    ensures QueuedRecords(O.Accept(i, rec)) == QueuedRecords(i) + [rec]
  {
    assert forall j :: 0 <= j < |i.logCh| ==> i.logCh[j] in i.logCh;
  }

  lemma RejectQueuesNothing(i: O.Intake, rec: LogRecord)
    requires forall k :: k in i.logCh ==> k < |i.calls|
    ensures forall k :: k in O.Reject(i, rec).logCh ==> k < |O.Reject(i, rec).calls|
    ensures QueuedRecords(O.Reject(i, rec)) == QueuedRecords(i)
  {
    assert forall j :: 0 <= j < |i.logCh| ==> i.logCh[j] in i.logCh;
  }

  /** An uninterrupted connectOnce, once dialled, is two steps of the whole: it installs and signals. */
  lemma ConnectOnceIsRun(encodable: O.Encodable, s: C.State) returns (t: C.State)
    requires s.g.sup.at.Dialing?
    ensures C.Run(encodable, s, [C.Link(G.Install), C.Link(G.Announce)], t)
    ensures t.g.link == G.InstallGen(s.g.link) && t.g.sup.at == G.Reading && t.signal
    ensures t.g.started == s.g.started && t.g.live == s.g.live && t.intake == s.intake && t.delivery == s.delivery
  {
    var mid := C.Apply(encodable, s, C.Link(G.Install));
    t := C.Apply(encodable, mid, C.Link(G.Announce));
    C.OneStepRun(encodable, mid, C.Link(G.Announce));
    assert [C.Link(G.Install), C.Link(G.Announce)][1..] == [C.Link(G.Announce)];
  }

  /** A failed one is one step that leaves the connection as it was. */
  lemma FailedConnectIsRun(encodable: O.Encodable, s: C.State)
    requires s.g.sup.at.Dialing?
    ensures C.Enabled(s, C.Link(G.DialFail))
    ensures var t := C.Apply(encodable, s, C.Link(G.DialFail));
            t.g.link == s.g.link && t.signal == s.signal && t.intake == s.intake && t.delivery == s.delivery
  {
  }

  /** The steps of an uninterrupted writeDirect for the row at hand, r naming the report it makes if the
      write fails. */
  function WriteSteps(up: bool, writeOk: bool, r: nat): seq<C.Action> {
    [C.Log(O.SyncNext)] +
    if !up then []
    else if writeOk then [C.Log(O.SyncWrite(true))]
    else [C.Log(O.SyncWrite(false)), C.Drop(r), C.Link(G.ReportCancel(r)), C.Link(G.ReportClose(r)),
          C.Link(G.ReportDone(r))]
  }

  /** writeDirect, by the sync worker about to send an encodable row: those steps are possible one after
      the other, they do to the connection what the method does, and the row is on the wire and counted
      as handled exactly if it returns nil. */
  lemma WriteDirectIsRun(encodable: O.Encodable, s: C.State, writeOk: bool, r: nat) returns (t: C.State)
    requires GenerationsRuns.Inv(s.g) && r !in s.g.reports
    requires s.delivery.sync.SSending? && s.delivery.sync.done < |s.delivery.sync.batch|
    requires encodable(s.delivery.sync.batch[s.delivery.sync.done].rec)
    ensures C.Run(encodable, s, WriteSteps(C.Up(s.g.link), writeOk, r), t)
    ensures t.g == if C.Up(s.g.link) && !writeOk then s.g.(link := Disconnected(s.g.link)) else s.g
    ensures var entry, ids := s.delivery.sync.batch[s.delivery.sync.done], s.delivery.sync.ids;
            if C.Up(s.g.link) && writeOk
            then t.delivery.wire == s.delivery.wire + [entry.id] && O.Handled(t.delivery.sync) == ids + [entry.id]
            else t.delivery.wire == s.delivery.wire && t.delivery.sync == O.SAbandoning(ids)
    ensures t.intake == s.intake && t.signal == s.signal && t.delivery.table == s.delivery.table
  {
    var up, next := C.Up(s.g.link), C.Log(O.SyncNext);
    var mid := C.Apply(encodable, s, next);
    if !up {
      t := mid;
      C.OneStepRun(encodable, s, next);
      assert WriteSteps(up, writeOk, r) == [next];
    } else if writeOk {
      t := C.Apply(encodable, mid, C.Log(O.SyncWrite(true)));
      C.OneStepRun(encodable, mid, C.Log(O.SyncWrite(true)));
      C.RunPrepends(encodable, s, next, [C.Log(O.SyncWrite(true))], t);
    } else {
      t := FailedWriteRun(encodable, mid, r);
      C.RunPrepends(encodable, s, next, WriteSteps(up, writeOk, r)[1..], t);
    }
  }

  /** The failed write, and its handleDisconnect taking the lock. */
  lemma FailedWriteSteps(encodable: O.Encodable, s: C.State, r: nat) returns (mid: C.State, t: C.State)
    requires r !in s.g.reports && s.g.link.connected
    requires s.delivery.sync.SWriting? && s.delivery.sync.done < |s.delivery.sync.batch|
    ensures C.Enabled(s, C.Log(O.SyncWrite(false))) && mid == C.Apply(encodable, s, C.Log(O.SyncWrite(false)))
    ensures C.Enabled(mid, C.Drop(r)) && t == C.Apply(encodable, mid, C.Drop(r))
    ensures t == s.(g := G.Apply(s.g, G.ReportBegin(r)),
                    delivery := s.delivery.(sync := O.SAbandoning(s.delivery.sync.ids)))
  {
    mid := C.Apply(encodable, s, C.Log(O.SyncWrite(false)));
    assert mid.g == s.g && mid.delivery.sync.SDropping?;
    t := C.Apply(encodable, mid, C.Drop(r));
  }

  /** The failed write and its handleDisconnect. */
  lemma FailedWriteRun(encodable: O.Encodable, s: C.State, r: nat) returns (t: C.State)
    requires GenerationsRuns.Inv(s.g) && r !in s.g.reports && s.g.link.connected
    requires s.delivery.sync.SWriting? && s.delivery.sync.done < |s.delivery.sync.batch|
    ensures C.Run(encodable, s, WriteSteps(true, false, r)[1..], t)
    ensures t == s.(g := s.g.(link := Disconnected(s.g.link)),
                    delivery := s.delivery.(sync := O.SAbandoning(s.delivery.sync.ids)))
  {
    var mid, dropped := FailedWriteSteps(encodable, s, r);
    var g := DisconnectIsRun(s.g, r);
    t := dropped.(g := g);
    var tail := [G.ReportCancel(r), G.ReportClose(r), G.ReportDone(r)];
    assert [G.ReportBegin(r), G.ReportCancel(r), G.ReportClose(r), G.ReportDone(r)][1..] == tail;
    LinkRun(encodable, dropped, tail, g);
    C.RunPrepends(encodable, mid, C.Drop(r), Links(tail), t);
    C.RunPrepends(encodable, s, C.Log(O.SyncWrite(false)), [C.Drop(r)] + Links(tail), t);
    FailedSteps(r);
  }

  lemma FailedSteps(r: nat)
    ensures WriteSteps(true, false, r)[1..] ==
            [C.Log(O.SyncWrite(false))]
            + ([C.Drop(r)] + Links([G.ReportCancel(r), G.ReportClose(r), G.ReportDone(r)]))
  {
  }

  function Links(acts: seq<G.Action>): seq<C.Action> {
    seq(|acts|, i requires 0 <= i < |acts| => C.Link(acts[i]))
  }

  /** Steps of the connection alone, none of them a signal. */
  lemma {:induction false} LinkRun(encodable: O.Encodable, s: C.State, acts: seq<G.Action>, g: G.State)
    requires G.Run(s.g, acts, g) && forall i :: 0 <= i < |acts| ==> !acts[i].Announce?
    ensures C.Run(encodable, s, Links(acts), s.(g := g))
    decreases |acts|
  {
    if acts != [] {
      var mid := C.Apply(encodable, s, C.Link(acts[0]));
      LinkRun(encodable, mid, acts[1..], g);
      assert Links(acts)[1..] == Links(acts[1..]);
    }
  }

  /** An uninterrupted handleDisconnect is a run of the machine's own steps for it. */
  lemma DisconnectIsRun(s: G.State, r: nat) returns (t: G.State)
    requires GenerationsRuns.Inv(s) && r !in s.reports && s.link.connected
    ensures G.Run(s, [G.ReportBegin(r), G.ReportCancel(r), G.ReportClose(r), G.ReportDone(r)], t)
    ensures t == s.(link := Disconnected(s.link))
  {
    var s1 := G.Apply(s, G.ReportBegin(r));
    var s2 := G.Apply(s1, G.ReportCancel(r));
    var s3 := G.Apply(s2, G.ReportClose(r));
    t := G.Apply(s3, G.ReportDone(r));
    assert G.Run(s3, [G.ReportDone(r)], t);
    assert G.Run(s2, [G.ReportClose(r), G.ReportDone(r)], t);
    assert G.Run(s1, [G.ReportCancel(r), G.ReportClose(r), G.ReportDone(r)], t);
    assert t.reports == s.reports;
  }

  /** So is an uninterrupted Close. */
  lemma CloseIsRun(s: G.State) returns (t: G.State)
    requires GenerationsRuns.Inv(s) && s.closer == G.NotClosed
    ensures G.Run(s, [G.CloseBegin, G.CloseCancel, G.CloseConn, G.CloseDone], t)
    ensures t == s.(link := Shut(s.link), live := s.live && !s.started, closer := G.Closed(|s.link.gens|))
  {
    var s1 := G.Apply(s, G.CloseBegin);
    var s2 := G.Apply(s1, G.CloseCancel);
    var s3 := G.Apply(s2, G.CloseConn);
    t := G.Apply(s3, G.CloseDone);
    assert G.Run(s3, [G.CloseDone], t);
    assert G.Run(s2, [G.CloseConn, G.CloseDone], t);
    assert G.Run(s1, [G.CloseCancel, G.CloseConn, G.CloseDone], t);
  }

  /** Reporting one disconnect twice closes the channel once. */
  lemma DisconnectTwice(s: G.State)
    requires G.Reachable(s) && s.link.connected && s.link.gens != [] && !s.link.gens[|s.link.gens| - 1].onceFired
    ensures var once := Disconnected(s.link);
            && Disconnected(once) == once
            && once.gens[|s.link.gens| - 1].doneCloses == 1
            && !once.gens[|s.link.gens| - 1].open
  {
    GenerationsRuns.ReachableInv(s);
  }

  // ---- superviseReconnects ----

  /** How many attempts an outage takes: up to and including the first success, or all of them if the
      context ends it. */
  function Attempts(results: seq<bool>): (n: nat)
    ensures n <= |results|
  {
    if results == [] then 0
    else if results[0] then 1
    else 1 + Attempts(results[1..])
  }

  lemma {:induction false} AttemptsSpec(results: seq<bool>, n: nat)
    requires n < |results| && (forall i :: 0 <= i < n ==> !results[i])
    ensures if results[n] then Attempts(results) == n + 1 else Attempts(results) > n
  {
    if n > 0 {
      AttemptsSpec(results[1..], n - 1);
    }
  }

  lemma {:induction false} AllFail(results: seq<bool>)
    requires forall i :: 0 <= i < |results| ==> !results[i]
    ensures Attempts(results) == |results|
  {
    if results != [] {
      AllFail(results[1..]);
    }
  }

  /** The supervisor over a list of outages, each given by the results of its reconnects (a list without
      a success ends with the context). Whatever the outages before, the delays of an outage are
      Delay(0), Delay(1), ... one for each attempt. */
  method SuperviseReconnects(outages: seq<seq<bool>>) returns (waits: seq<seq<nat>>)
    ensures |waits| <= |outages|
    ensures forall o :: 0 <= o < |waits| ==> waits[o] == G.Delays(Attempts(outages[o]))
    ensures |waits| < |outages| ==> waits != [] && true !in outages[|waits| - 1]
  {
    waits := [];
    var backoff: nat := G.DEFAULT_BACKOFF;
    for o := 0 to |outages|
      invariant |waits| == o && backoff == G.Delay(0)
      invariant forall p :: 0 <= p < o ==> waits[p] == G.Delays(Attempts(outages[p]))
    {
      var slept: seq<nat> := [];
      var results := outages[o];
      var attempt := 0;
      var reconnected := false;
      while attempt < |results| && !reconnected
        invariant attempt <= |results|
        invariant !reconnected ==> slept == G.Delays(attempt) && backoff == G.Delay(attempt)
        invariant !reconnected ==> forall i :: 0 <= i < attempt ==> !results[i]
        invariant reconnected ==> slept == G.Delays(Attempts(results)) && backoff == G.Delay(0)
        decreases |results| - attempt, !reconnected
      {
        slept := slept + [backoff];
        AttemptsSpec(results, attempt);
        if !results[attempt] {
          backoff := backoff * 2;
          if backoff > G.MAX_BACKOFF {
            backoff := G.MAX_BACKOFF;
          }
          attempt := attempt + 1;
        } else {
          backoff := G.DEFAULT_BACKOFF;
          reconnected := true;
        }
      }
      if !reconnected {
        AllFail(results);
        waits := waits + [slept];
        return;
      }
      waits := waits + [slept];
    }
  }
}
