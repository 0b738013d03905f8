/** Theorems about every run of the bot lifecycle. */
module LifecycleRuns {
  import opened Prelude
  import opened Lifecycle
  import opened LifecycleInv

  /** Incarnation safety: whatever starts, stops, restarts and exits interleave, the reader and the
      monitor of incarnation i found i when they looked its bot id up, and each of its channels has
      been closed once by the goroutine that closes it, or not yet. */
  lemma IncarnationSafety(s: State, i: nat)
    requires Reachable(s) && i < |s.incs|
    ensures s.incs[i].reader != RLost && (s.incs[i].reader.RReading? ==> s.incs[i].reader.target == i)
    ensures s.incs[i].monitor != MLost && (Target(s.incs[i].monitor).Some? ==> Target(s.incs[i].monitor) == Some(i))
    ensures s.incs[i].stdoutDone == if s.incs[i].reader == RClosed then 1 else 0
    ensures s.incs[i].done == if s.incs[i].monitor == MFinished then 1 else 0
  {
    ReachableInv(s);
    assert IncOk(i, s.incs[i]);
  }

  /** The entry of a registered bot stays, and stays its own, as long as its reader has not finished. */
  lemma EntryStaysWhileReading(s: State, i: nat)
    requires Reachable(s) && i < |s.incs| && s.incs[i].registered && s.incs[i].reader != RClosed
    ensures s.incs[i].cmd.botId in s.procs && s.procs[s.incs[i].cmd.botId] == i
  {
    ReachableInv(s);
    assert IncOk(i, s.incs[i]) && Active(s.incs[i]) && Entry(s.procs, s.incs, i);
  }

  /** The monitor deletes its own entry and no other. */
  lemma DeletesOwnEntry(s: State, i: nat)
    requires Reachable(s) && Enabled(s, MonitorDelete(i))
    ensures var b, s' := s.incs[i].cmd.botId, Apply(s, MonitorDelete(i));
            && b in s.procs && s.procs[b] == i
            && s'.procs == s.procs - {b}
            && (forall j :: j in s'.procs.Values ==> j != i)
  {
    ReachableInv(s);
    FindsItself(s, i);
  }

  /** At most one incarnation per bot id is registered, and its saved configuration is the command that
      started it. */
  lemma OneIncarnationPerBot(s: State, i: nat, j: nat)
    requires Reachable(s) && i < |s.incs| && j < |s.incs|
    requires Active(s.incs[i]) && Active(s.incs[j]) && s.incs[i].cmd.botId == s.incs[j].cmd.botId
    ensures i == j
    ensures s.incs[i].cmd.botId in s.configs && s.configs[s.incs[i].cmd.botId] == s.incs[i].cmd
  {
    ReachableInv(s);
    assert Entry(s.procs, s.incs, i) && Entry(s.procs, s.incs, j);
  }

  /** Held by a StartBot call that is still deciding about it. */
  predicate HeldByStart(s: State, i: nat)
    requires i < |s.incs|
  {
    var c := s.incs[i].owner;
    c < |s.starts| && (s.starts[c].at == Holding(i) || s.starts[c].at == Losing(i) || s.starts[c].at == Reaping(i))
  }

  predicate RegisteredUnreaped(s: State, i: nat)
    requires i < |s.incs|
  {
    s.incs[i].registered && !s.incs[i].reaped && s.incs[i].cmd.botId in s.procs && s.procs[s.incs[i].cmd.botId] == i
  }

  /** Child accounting: a spawned child is held by an in-flight StartBot call, or registered, or reaped,
      and exactly one of these; and a StartBot call that lost the second check and returned has
      killed and reaped its child. */
  lemma ChildAccounting(s: State, i: nat)
    requires Reachable(s) && i < |s.incs|
    ensures HeldByStart(s, i) || RegisteredUnreaped(s, i) || s.incs[i].reaped
    ensures HeldByStart(s, i) ==> !RegisteredUnreaped(s, i) && !s.incs[i].reaped
    ensures forall c :: 0 <= c < |s.starts| && s.starts[c].at == Lost(i) ==>
            s.incs[i].killed && s.incs[i].reaped && !s.incs[i].registered
  {
    ReachableInv(s);
    assert IncOk(i, s.incs[i]) && CallOk(s.incs[i].owner, s.starts[s.incs[i].owner], s.incs);
    if Active(s.incs[i]) {
      assert Entry(s.procs, s.incs, i);
    }
    forall c | 0 <= c < |s.starts| && s.starts[c].at == Lost(i)
      ensures s.incs[i].killed && s.incs[i].reaped && !s.incs[i].registered
    {
      assert CallOk(c, s.starts[c], s.incs);
    }
  }

  /** Exactly one terminal status per registered incarnation, sent by its monitor before it closes Done. */
  lemma OneTerminalStatus(s: State, i: nat)
    requires Reachable(s) && i < |s.incs|
    ensures Emitted(s.incs[i].monitor) <==> HasTerminal(s.events, i)
    ensures forall p, q :: 0 <= p < q < |s.events| && IsTerminal(s.events[p], i) ==> !IsTerminal(s.events[q], i)
  {
    ReachableInv(s);
    if HasTerminal(s.events, i) {
      var p :| 0 <= p < |s.events| && IsTerminal(s.events[p], i);
      assert EventOk(s.events[p], s.starts, s.incs);
    }
  }

  /** The status says "error" exactly if stop was not requested when the monitor loaded the flag and
      either Wait failed or the last exit line this incarnation's own reader handled had a code that
      is nonzero as an int32; and then it says which. */
  lemma TerminalStatusIsOwn(s: State, p: nat)
    requires Reachable(s) && p < |s.events| && s.events[p].Terminal?
    ensures var i, status := s.events[p].i, s.events[p].status;
            && i < |s.incs| && s.incs[i].loadedStop.Some?
            && var inc := s.incs[i];
               var code := LastExit(inc.exitCodes);
               && (status != Stopped <==> !inc.loadedStop.value && (inc.failed || code != 0))
               && (status == WaitError <==> !inc.loadedStop.value && inc.failed)
               && (status.ExitCode? ==> status.code == code != 0)
  {
    ReachableInv(s);
    assert EventOk(s.events[p], s.starts, s.incs);
  }

  /** StopBot returning nil: the incarnation it captured has left the registry, its terminal status has
      been sent and its Done is closed. */
  lemma StopReturnsNil(s: State, k: nat)
    requires Reachable(s) && k < |s.stops| && s.stops[k].at.StoppedNil?
    ensures var i := s.stops[k].at.i;
            && i < |s.incs| && s.incs[i].cmd.botId == s.stops[k].botId
            && i !in s.procs.Values
            && HasTerminal(s.events, i)
            && s.incs[i].done == 1
  {
    ReachableInv(s);
    assert StopOk(s.stops[k], s.incs) && IncOk(s.stops[k].at.i, s.incs[s.stops[k].at.i]);
  }

  /** When RestartBot went through StopBot, the stopped incarnation's terminal status precedes the
      "running" of the incarnation its StartBot call started, and that one runs the saved command
      RestartBot had read. */
  lemma RestartOrder(s: State, r: nat, q: nat)
    requires Reachable(s) && r < |s.restarts| && s.restarts[r].at.Starting? && s.restarts[r].at.stopped.Some?
    requires q < |s.events| && s.events[q].Running? && s.events[q].i < |s.incs|
    requires s.incs[s.events[q].i].owner == s.restarts[r].at.start
    ensures exists p :: 0 <= p < q && IsTerminal(s.events[p], s.restarts[r].at.stopped.value)
    ensures s.restarts[r].config == Some(s.incs[s.events[q].i].cmd)
    ensures s.events[q].i != s.restarts[r].at.stopped.value
  {
    ReachableInv(s);
    var c, i := s.restarts[r].at.start, s.restarts[r].at.stopped.value;
    assert RestartOk(s.restarts[r], s.starts, s.stops, s.events, s.incs) && EventOk(s.events[q], s.starts, s.incs)
           && CallOk(c, s.starts[c], s.incs);
    var p :| 0 <= p < |s.events| && IsTerminal(s.events[p], i) && NoRunningBefore(s.events, s.incs, p, c);
    assert EventOk(s.events[q], s.starts, s.incs) && Child(s.starts[c].at) == Some(s.events[q].i);
    assert p < q;
  }

  // ---------------------------------------------------------------------------------------------
  // Nobody is stranded
  // ---------------------------------------------------------------------------------------------

  function ReaderRank(inc: Inc): nat {
    match inc.reader
    case RNone => 3 + inc.lines
    case RSpawned => 2 + inc.lines
    case RReading(_) => 1 + inc.lines
    case RClosed => 0
    case RLost => 0
  }

  function MonitorRank(m: Monitor): nat {
    match m
    case MNone => 9
    case MSpawned => 8
    case MWaiting(_) => 7
    case MReaped(_, _) => 6
    case MDrained(_, _) => 5
    case MStopLoaded(_, _, _) => 4
    case MDecided(_, _) => 3
    case MDeleted(_, _) => 2
    case MEmitted(_) => 1
    case MFinished => 0
    case MLost => 0
  }

  /** Steps that incarnation i's goroutines and the call that starts them still have to take once the
      child's output has ended. */
  function Rank(inc: Inc): nat {
    ReaderRank(inc) + MonitorRank(inc.monitor)
  }

  /** A step of incarnation i's own reader or monitor, or of its StartBot call starting one. */
  predicate OwnAction(s: State, i: nat, a: Action)
    requires i < |s.incs|
  {
    || (ReaderAction(a) && a.i == i)
    || (MonitorAction(a) && a.i == i)
    || ((a.SpawnReader? || a.SpawnMonitor?) && a.c == s.incs[i].owner)
  }

  predicate Ended(inc: Inc) {
    inc.registered && inc.exited && inc.eof
  }

  /** What a step may do to an ended incarnation. */
  ghost predicate Proceeds(s: State, a: Action, i: nat)
    requires Enabled(s, a) && i < |s.incs|
  {
    var s' := Apply(s, a);
    && |s'.incs| >= |s.incs|
    && Ended(s'.incs[i]) && s'.incs[i].owner == s.incs[i].owner
    && if OwnAction(s, i, a) then Rank(s'.incs[i]) < Rank(s.incs[i]) else Rank(s'.incs[i]) <= Rank(s.incs[i])
  }

  /** What a step may do to an ended incarnation: `own` says whether the step is its own. */
  predicate Onward(inc: Inc, inc': Inc, own: bool) {
    Ended(inc') && inc'.owner == inc.owner && if own then Rank(inc') < Rank(inc) else Rank(inc') <= Rank(inc)
  }

  /** Every step keeps an ended incarnation ended and does not raise its rank; its own lower it. */
  lemma RankStep(s: State, a: Action, i: nat)
    requires Inv(s) && Enabled(s, a) && i < |s.incs| && Ended(s.incs[i])
    ensures Proceeds(s, a, i)
  {
    if StartAction(a) {
      assert CallOk(s.incs[i].owner, s.starts[s.incs[i].owner], s.incs);
      if a.StartBegin? || a.StartFail? || a.Spawn? {
        RankNoChild(s, a, i);
      } else {
        assert CallOk(a.c, s.starts[a.c], s.incs);
        if a.SpawnReader? || a.SpawnMonitor? { RankGoroutine(s, a, i); } else { RankDeciding(s, a, i); }
      }
    } else if ReaderAction(a) {
      RankReader(s, a, i);
    } else if MonitorAction(a) {
      RankMonitor(s, a, i);
    } else {
      RankOther(s, a, i);
    }
  }

  lemma RankNoChild(s: State, a: Action, i: nat)
    requires Enabled(s, a) && i < |s.incs| && Ended(s.incs[i])
    requires a.StartBegin? || a.StartFail? || a.Spawn?
    ensures Proceeds(s, a, i)
  {
    assert Apply(s, a) == ApplyStart(s, a) && ApplyStart(s, a).incs[i] == s.incs[i];
  }

  lemma RankGoroutine(s: State, a: Action, i: nat)
    requires Enabled(s, a) && i < |s.incs| && Ended(s.incs[i]) && (a.SpawnReader? || a.SpawnMonitor?)
    requires CallOk(a.c, s.starts[a.c], s.incs) && s.incs[i].owner < |s.starts|
             && Child(s.starts[s.incs[i].owner].at) == Some(i)
    ensures Proceeds(s, a, i)
  {
    var j := s.starts[a.c].at.i;
    var t := ApplyStart(s, a);
    assert Apply(s, a) == t && |t.incs| == |s.incs|;
    if j == i {
      assert Onward(s.incs[i], t.incs[i], true);
    } else {
      assert t.incs[i] == s.incs[i] && !OwnAction(s, i, a);
    }
  }

  lemma RankDeciding(s: State, a: Action, i: nat)
    requires Enabled(s, a) && i < |s.incs| && Ended(s.incs[i])
    requires a.SecondCheck? || a.KillLoser? || a.ReapLoser? || a.EmitRunning?
    requires CallOk(a.c, s.starts[a.c], s.incs)
    ensures Proceeds(s, a, i)
  {
    var t := ApplyStart(s, a);
    assert Apply(s, a) == t && |t.incs| == |s.incs|;
    assert !OwnAction(s, i, a) && t.incs[i] == s.incs[i];
  }

  /** A step inside incarnation j leaves incarnation i alone if it is another one. */
  lemma RankLocal(s: State, a: Action, j: nat, i: nat)
    requires Enabled(s, a) && i < |s.incs| && Ended(s.incs[i]) && IsLocal(s, Apply(s, a), j)
    requires OwnAction(s, i, a) ==> i == j
    requires i == j ==> Onward(s.incs[i], Apply(s, a).incs[i], OwnAction(s, i, a))
    ensures Proceeds(s, a, i)
  {
  }

  lemma RankReader(s: State, a: Action, i: nat)
    requires Inv(s) && Enabled(s, a) && i < |s.incs| && Ended(s.incs[i]) && ReaderAction(a)
    ensures Proceeds(s, a, i)
  {
    FindsItself(s, a.i);
    assert IncOk(a.i, s.incs[a.i]);
    ReaderEffect(s, a);
    assert Apply(s, a) == ApplyReader(s, a);
    if i == a.i { RankOwnReader(s, a); }
    RankLocal(s, a, a.i, i);
  }

  lemma RankOwnReader(s: State, a: Action)
    requires Enabled(s, a) && ReaderAction(a) && Ended(s.incs[a.i]) && IsLocal(s, ApplyReader(s, a), a.i)
    requires IncOk(a.i, s.incs[a.i]) && Entry(s.procs, s.incs, a.i)
    ensures Onward(s.incs[a.i], ApplyReader(s, a).incs[a.i], true)
  {
  }

  lemma RankMonitor(s: State, a: Action, i: nat)
    requires Inv(s) && MonitorAction(a) && Enabled(s, a) && i < |s.incs| && Ended(s.incs[i])
    ensures Proceeds(s, a, i)
  {
    assert IncOk(a.i, s.incs[a.i]);
    if EarlyMonitorAction(a) { RankEarlyMonitor(s, a); } else { RankLateMonitor(s, a); }
    MonitorProceeds(s, a, i);
  }

  /** Incarnation i has moved on, and the others are as they were. */
  predicate OnlyOnward(s: State, t: State, i: nat)
    requires i < |s.incs|
  {
    && |t.incs| == |s.incs| && t.incs == s.incs[i := t.incs[i]]
    && (Ended(s.incs[i]) ==> Onward(s.incs[i], t.incs[i], true))
  }

  lemma MonitorProceeds(s: State, a: Action, i: nat)
    requires MonitorAction(a) && Enabled(s, a) && i < |s.incs| && Ended(s.incs[i])
    requires OnlyOnward(s, ApplyMonitor(s, a), a.i)
    ensures Proceeds(s, a, i)
  {
    assert Apply(s, a) == ApplyMonitor(s, a);
  }

  lemma RankEarlyMonitor(s: State, a: Action)
    requires EarlyMonitorAction(a) && Enabled(s, a) && IncOk(a.i, s.incs[a.i])
    ensures OnlyOnward(s, ApplyMonitor(s, a), a.i)
  {
  }

  lemma RankLateMonitor(s: State, a: Action)
    requires MonitorAction(a) && !EarlyMonitorAction(a) && Enabled(s, a) && IncOk(a.i, s.incs[a.i])
    ensures OnlyOnward(s, ApplyMonitor(s, a), a.i)
  {
  }

  lemma RankOther(s: State, a: Action, i: nat)
    requires Enabled(s, a) && i < |s.incs| && Ended(s.incs[i])
    requires !StartAction(a) && !ReaderAction(a) && !MonitorAction(a)
    ensures Proceeds(s, a, i)
  {
    if ChildAction(a) {
      assert Apply(s, a) == ApplyChild(s, a);
    } else if StopAction(a) {
      assert Apply(s, a) == ApplyStop(s, a);
    } else {
      assert Apply(s, a) == ApplyRestart(s, a);
    }
  }

  /** While its Done is open, an ended incarnation always has a step of its own to take: its monitor,
      its reader and the StopBot calls waiting on it cannot block each other. */
  lemma OwnStepPossible(s: State, i: nat) returns (a: Action)
    requires Inv(s) && i < |s.incs| && Ended(s.incs[i]) && s.incs[i].done == 0
    ensures Enabled(s, a) && OwnAction(s, i, a) && Plain(a)
  {
    var inc := s.incs[i];
    assert IncOk(i, inc) && CallOk(inc.owner, s.starts[inc.owner], s.incs);
    a := match inc.reader
         case RNone => SpawnReader(inc.owner)
         case RSpawned => ReaderLookup(i)
         case RReading(_) => if inc.lines > 0 then ReadLine(i, Other) else ReadEnd(i, false)
         case _ => OwnMonitorStep(inc, i);
  }

  /** What the monitor does next once the reader has finished. */
  function OwnMonitorStep(inc: Inc, i: nat): Action {
    match inc.monitor
    case MNone => SpawnMonitor(inc.owner)
    case MSpawned => MonitorLookup(i)
    case MWaiting(_) => MonitorWait(i)
    case MReaped(_, _) => MonitorDrain(i)
    case MDrained(_, _) => MonitorLoadStop(i)
    case MStopLoaded(_, _, _) => MonitorLoadExit(i)
    case MDecided(_, _) => MonitorDelete(i)
    case MDeleted(_, _) => MonitorEmit(i)
    case _ => MonitorFinish(i)
  }

  /** The own steps of incarnation i among acts. */
  function OwnSteps(s: State, acts: seq<Action>, i: nat): nat
    requires i < |s.incs|
    decreases |acts|
  {
    if acts == [] then 0
    else
      var now := if OwnAction(s, i, acts[0]) then 1 else 0;
      if Enabled(s, acts[0]) && i < |Apply(s, acts[0]).incs|
      then now + OwnSteps(Apply(s, acts[0]), acts[1..], i)
      else now
  }

  lemma RankZero(i: nat, inc: Inc)
    requires IncOk(i, inc) && Ended(inc)
    ensures Rank(inc) == 0 <==> inc.done == 1
    ensures inc.done <= 1
  {
  }

  /** StopBot completion: once its child has exited and its output has ended, any run that lets
      incarnation i take Rank own steps, however the rest of the system is scheduled in between,
      closes its Done, and then every StopBot call waiting on it can return. */
  lemma StopCompletes(s: State, acts: seq<Action>, t: State, i: nat)
    requires Reachable(s) && Run(s, acts, t) && i < |s.incs| && Ended(s.incs[i])
    requires OwnSteps(s, acts, i) >= Rank(s.incs[i])
    ensures i < |t.incs| && t.incs[i].done == 1
    ensures forall k: nat :: WaitsFor(t, k, i) ==> Enabled(t, StopReturn(k))
  {
    ReachableInv(s);
    DoneAfterOwnSteps(s, acts, t, i);
    forall k: nat | WaitsFor(t, k, i)
      ensures Enabled(t, StopReturn(k))
    {
      assert StopExists(t, k);
    }
  }

  /** StopBot call k waits for incarnation i. */
  predicate WaitsFor(s: State, k: nat, i: nat) {
    k < |s.stops| && i < |s.incs| && (s.stops[k].at == Waiting(i) || s.stops[k].at == KillSent(i))
  }

  lemma DoneAfterOwnSteps(s: State, acts: seq<Action>, t: State, i: nat)
    requires Inv(s) && Run(s, acts, t) && i < |s.incs| && Ended(s.incs[i])
    requires OwnSteps(s, acts, i) >= Rank(s.incs[i])
    ensures i < |t.incs| && t.incs[i].done == 1
  {
    OwnStepsCount(s, acts, t, i);
    RunKeeps(s, acts, t);
    assert IncOk(i, t.incs[i]);
    RankZero(i, t.incs[i]);
  }

  lemma {:induction false} OwnStepsCount(s: State, acts: seq<Action>, t: State, i: nat)
    requires Inv(s) && Run(s, acts, t) && i < |s.incs| && Ended(s.incs[i])
    ensures i < |t.incs| && Ended(t.incs[i]) && OwnSteps(s, acts, i) + Rank(t.incs[i]) <= Rank(s.incs[i])
    decreases |acts|
  {
    if acts != [] {
      StepKeeps(s, acts[0]);
      RankStep(s, acts[0], i);
      OwnStepsCount(Apply(s, acts[0]), acts[1..], t, i);
    }
  }

  /** Neither an exit line nor the child's end nor a stop. */
  predicate Plain(a: Action) {
    !(a.ReadLine? && a.line.Exit?) && !a.ChildExits? && !a.StopFlag?
  }

  /** Nobody's calls have moved but the one that started the incarnation, and entries have only gone. */
  ghost predicate OthersStand(s: State, t: State) {
    && t.stops == s.stops && t.restarts == s.restarts && t.configs == s.configs
    && |t.starts| == |s.starts| && |t.incs| == |s.incs|
    && (forall b :: b in t.procs ==> b in s.procs && t.procs[b] == s.procs[b])
  }

  /** And such runs exist from every state: the incarnation's own steps alone will do. */
  lemma {:induction false} OwnStepsSuffice(s: State, i: nat) returns (acts: seq<Action>, t: State)
    requires Inv(s) && i < |s.incs| && Ended(s.incs[i])
    ensures Run(s, acts, t) && Inv(t) && i < |t.incs| && t.incs[i].done == 1 && OthersStand(s, t)
    ensures forall a :: a in acts ==> Plain(a)
    decreases Rank(s.incs[i])
  {
    assert IncOk(i, s.incs[i]);
    RankZero(i, s.incs[i]);
    if s.incs[i].done == 1 {
      acts, t := [], s;
    } else {
      var a := OwnStepPossible(s, i);
      StepKeeps(s, a);
      RankStep(s, a, i);
      OwnLeavesOthers(s, a, i);
      var rest;
      rest, t := OwnStepsSuffice(Apply(s, a), i);
      acts := [a] + rest;
      assert acts[1..] == rest;
    }
  }

  lemma OwnLeavesOthers(s: State, a: Action, i: nat)
    requires Enabled(s, a) && i < |s.incs| && OwnAction(s, i, a)
    ensures OthersStand(s, Apply(s, a))
  {
    if ReaderAction(a) {
      ReaderLeavesOthers(s, a);
    } else if MonitorAction(a) {
      MonitorLeavesOthers(s, a);
    } else {
      SpawnLeavesOthers(s, a);
    }
  }

  lemma SpawnLeavesOthers(s: State, a: Action)
    requires Enabled(s, a) && (a.SpawnReader? || a.SpawnMonitor?)
    ensures OthersStand(s, ApplyStart(s, a))
  {
  }

  lemma ReaderLeavesOthers(s: State, a: Action)
    requires Enabled(s, a) && ReaderAction(a)
    ensures OthersStand(s, ApplyReader(s, a))
  {
  }

  lemma MonitorLeavesOthers(s: State, a: Action)
    requires Enabled(s, a) && MonitorAction(a)
    ensures OthersStand(s, ApplyMonitor(s, a))
  {
  }
}
