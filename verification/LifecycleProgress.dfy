/** StartBot, StopBot and RestartBot do what they are for: a free bot id gets a child that runs the command, a
    taken one gets none, and a restart brings the saved command up again. */
module LifecycleProgress {
  import opened Prelude
  import opened Lifecycle
  import opened LifecycleInv
  import opened LifecycleRuns

  // ---- building runs ----

  lemma {:induction false} RunsJoin(s: State, a: seq<Action>, t: State, b: seq<Action>, u: State)
    requires Run(s, a, t) && Run(t, b, u)
    ensures Run(s, a + b, u)
    decreases |a|
  {
    if a == [] {
      assert a + b == b;
    } else {
      RunsJoin(Apply(s, a[0]), a[1..], t, b, u);
      assert (a + b)[1..] == a[1..] + b;
    }
  }

  lemma OneStep(s: State, a: Action)
    requires Enabled(s, a)
    ensures Run(s, [a], Apply(s, a))
  {
    assert [a][1..] == [] && Run(Apply(s, a), [], Apply(s, a));
  }

  /** A run goes on by one step. */
  lemma Extend(s: State, acts: seq<Action>, t: State, a: Action) returns (u: State)
    requires Run(s, acts, t) && Enabled(t, a)
    ensures Run(s, acts + [a], u) && u == Apply(t, a)
  {
    u := Apply(t, a);
    OneStep(t, a);
    RunsJoin(s, acts, t, [a], u);
  }

  // ---------------------------------------------------------------------------------------------
  // StartBot
  // ---------------------------------------------------------------------------------------------

  /** s with incarnation |s.incs| spawned by call c, and that call there. */
  function Spawned(s: State, c: nat, inc: Inc, at: StartAt): State
    requires c < |s.starts|
  {
    s.(incs := s.incs + [inc], starts := s.starts[c := s.starts[c].(at := at)])
  }

  function Registry(s: State, cmd: Command): State {
    s.(procs := s.procs[cmd.botId := |s.incs|], configs := s.configs[cmd.botId := cmd])
  }

  /** The call spawns its child and wins the second check. */
  lemma SpawnAndRegister(s: State, c: nat) returns (t: State)
    requires c < |s.starts| && s.starts[c].at == Checked && s.starts[c].cmd.botId !in s.procs
    ensures Run(s, [Spawn(c), SecondCheck(c)], t)
    ensures var cmd := s.starts[c].cmd;
            t == Registry(Spawned(s, c, NewInc(cmd, c).(registered := true), Registered(|s.incs|)), cmd)
                 .(procs := s.procs[cmd.botId := |s.incs|])
  {
    var cmd, i := s.starts[c].cmd, |s.incs|;
    var mid := Apply(s, Spawn(c));
    assert mid == Spawned(s, c, NewInc(cmd, c), Holding(i));
    OneStep(s, Spawn(c));
    t := Extend(s, [Spawn(c)], mid, SecondCheck(c));
    assert [Spawn(c)] + [SecondCheck(c)] == [Spawn(c), SecondCheck(c)];
    assert t.incs == s.incs + [NewInc(cmd, c).(registered := true)];
    assert t.starts == s.starts[c := s.starts[c].(at := Registered(i))];
  }

  /** It starts the two goroutines and sends "running". */
  lemma StartGoroutines(s: State, c: nat, i: nat) returns (t: State)
    requires c < |s.starts| && s.starts[c].at == Registered(i) && i < |s.incs|
    ensures Run(s, [SpawnReader(c), SpawnMonitor(c), EmitRunning(c)], t)
    ensures t == s.(incs := s.incs[i := s.incs[i].(reader := RSpawned, monitor := MSpawned)],
                    starts := s.starts[c := s.starts[c].(at := Succeeded(i))],
                    events := s.events + [Running(i)])
  {
    var mid := GoroutinesUp(s, c, i);
    t := Extend(s, [SpawnReader(c), SpawnMonitor(c)], mid, EmitRunning(c));
    assert [SpawnReader(c), SpawnMonitor(c)] + [EmitRunning(c)] == [SpawnReader(c), SpawnMonitor(c), EmitRunning(c)];
    Announced(mid, c, i);
    assert t.starts == s.starts[c := s.starts[c].(at := Succeeded(i))];
  }

  lemma Announced(s: State, c: nat, i: nat)
    requires c < |s.starts| && s.starts[c].at == MonitorUp(i) && i < |s.incs|
    ensures Apply(s, EmitRunning(c)) == s.(starts := s.starts[c := s.starts[c].(at := Succeeded(i))],
                                           events := s.events + [Running(i)])
  {
  }

  lemma GoroutinesUp(s: State, c: nat, i: nat) returns (t: State)
    requires c < |s.starts| && s.starts[c].at == Registered(i) && i < |s.incs|
    ensures Run(s, [SpawnReader(c), SpawnMonitor(c)], t)
    ensures t == s.(incs := s.incs[i := s.incs[i].(reader := RSpawned, monitor := MSpawned)],
                    starts := s.starts[c := s.starts[c].(at := MonitorUp(i))])
  {
    var mid := ReaderIsUp(s, c, i);
    OneStep(s, SpawnReader(c));
    t := Extend(s, [SpawnReader(c)], mid, SpawnMonitor(c));
    assert [SpawnReader(c)] + [SpawnMonitor(c)] == [SpawnReader(c), SpawnMonitor(c)];
    assert t == ApplyStart(mid, SpawnMonitor(c));
    assert t.starts == s.starts[c := s.starts[c].(at := MonitorUp(i))];
    assert t.incs == s.incs[i := s.incs[i].(reader := RSpawned, monitor := MSpawned)];
  }

  lemma ReaderIsUp(s: State, c: nat, i: nat) returns (t: State)
    requires c < |s.starts| && s.starts[c].at == Registered(i) && i < |s.incs|
    ensures Enabled(s, SpawnReader(c)) && t == Apply(s, SpawnReader(c))
    ensures t == s.(incs := s.incs[i := s.incs[i].(reader := RSpawned)],
                    starts := s.starts[c := s.starts[c].(at := ReaderUp(i))])
  {
    t := ApplyStart(s, SpawnReader(c));
  }

  /** The bot of cmd runs as a new incarnation, number |s.incs|, started by call c; all else is as in s. */
  ghost predicate RunsNew(s: State, t: State, cmd: Command, c: nat) {
    var i := |s.incs|;
    && |t.incs| == i + 1 && t.incs[..i] == s.incs
    && t.incs[i].cmd == cmd && t.incs[i].owner == c && t.incs[i].registered && !t.incs[i].exited
    && t.incs[i].reader == RSpawned && t.incs[i].monitor == MSpawned && !t.incs[i].stopRequested
    && t.procs == s.procs[cmd.botId := i] && t.configs == s.configs[cmd.botId := cmd]
    && t.events == s.events + [Running(i)]
    && c < |t.starts| && t.starts[c] == StartCall(cmd, Succeeded(i))
    && t.stops == s.stops && t.restarts == s.restarts
  }

  function StartSteps(c: nat): seq<Action> {
    [Spawn(c), SecondCheck(c)] + [SpawnReader(c), SpawnMonitor(c), EmitRunning(c)]
  }

  /** A call past its first check, its bot id still free, can go all the way. */
  lemma CheckedCallRuns(s: State, c: nat) returns (t: State)
    requires c < |s.starts| && s.starts[c].at == Checked && s.starts[c].cmd.botId !in s.procs
    ensures Run(s, StartSteps(c), t) && RunsNew(s, t, s.starts[c].cmd, c)
  {
    var mid := SpawnAndRegister(s, c);
    t := StartGoroutines(mid, c, |s.incs|);
    RunsJoin(s, [Spawn(c), SecondCheck(c)], mid, [SpawnReader(c), SpawnMonitor(c), EmitRunning(c)], t);
    assert t.incs[..|s.incs|] == s.incs;
  }

  /** A valid StartBot for a bot that is not running starts it: these six steps are possible one after the
      other, and leave the bot registered and announced, running the command as a new incarnation. */
  lemma StartBotStarts(s: State, cmd: Command) returns (t: State)
    requires cmd.botId !in s.procs
    ensures Run(s, [StartBegin(cmd, true)] + StartSteps(|s.starts|), t)
    ensures RunsNew(s, t, cmd, |s.starts|)
  {
    var mid := Apply(s, StartBegin(cmd, true));
    t := CheckedCallRuns(mid, |s.starts|);
    OneStep(s, StartBegin(cmd, true));
    RunsJoin(s, [StartBegin(cmd, true)], mid, StartSteps(|s.starts|), t);
  }

  lemma {:induction false} RefusedStays(s: State, acts: seq<Action>, t: State, c: nat)
    requires Inv(s) && Run(s, acts, t) && c < |s.starts| && s.starts[c].at == Refused
    ensures Inv(t) && c < |t.starts| && t.starts[c].at == Refused
    decreases |acts|
  {
    if acts != [] {
      var u := Apply(s, acts[0]);
      StepKeeps(s, acts[0]);
      CallMoves(s, acts[0], c);
      RefusedStays(u, acts[1..], t, c);
    }
  }

  /** Only its own steps move a StartBot call. */
  lemma CallMoves(s: State, a: Action, c: nat)
    requires Enabled(s, a) && c < |s.starts|
    ensures c < |Apply(s, a).starts|
    ensures s.starts[c].at == Refused ==> Apply(s, a).starts[c].at == Refused
    ensures s.starts[c].at.Losing? || s.starts[c].at.Reaping? || s.starts[c].at.Lost? ==>
              var at := Apply(s, a).starts[c].at;
              (at.Losing? || at.Reaping? || at.Lost?) && at.i == s.starts[c].at.i
  {
    if StartAction(a) {
      StartCallMoves(s, a, c);
    } else {
      OthersKeepStarts(s, a, c);
    }
  }

  lemma StartCallMoves(s: State, a: Action, c: nat)
    requires Enabled(s, a) && StartAction(a) && c < |s.starts|
    ensures c < |ApplyStart(s, a).starts|
    ensures s.starts[c].at == Refused ==> ApplyStart(s, a).starts[c].at == Refused
    ensures s.starts[c].at.Losing? || s.starts[c].at.Reaping? || s.starts[c].at.Lost? ==>
              var at := ApplyStart(s, a).starts[c].at;
              (at.Losing? || at.Reaping? || at.Lost?) && at.i == s.starts[c].at.i
  {
  }

  lemma OthersKeepStarts(s: State, a: Action, c: nat)
    requires Enabled(s, a) && !StartAction(a) && c < |s.starts|
    ensures c < |Apply(s, a).starts| && Apply(s, a).starts[c] == s.starts[c]
  {
    if ChildAction(a) {
      assert Apply(s, a).starts == s.starts;
    } else if ReaderAction(a) {
      ReaderLeavesOthers(s, a);
      assert ApplyReader(s, a).starts == s.starts;
    } else if MonitorAction(a) {
      assert ApplyMonitor(s, a).starts == s.starts;
    } else if StopAction(a) {
      assert ApplyStop(s, a).starts == s.starts;
    } else {
      assert Apply(s, a) == ApplyRestart(s, a);
    }
  }

  /** A StartBot for a bot that is running, or with an invalid command, never has a child. */
  lemma RefusedStartSpawnsNothing(s: State, cmd: Command, valid: bool, acts: seq<Action>, t: State)
    requires Reachable(s) && (cmd.botId in s.procs || !valid)
    requires Run(Apply(s, StartBegin(cmd, valid)), acts, t)
    ensures forall i :: 0 <= i < |t.incs| ==> t.incs[i].owner != |s.starts|
  {
    ReachableInv(s);
    StepKeeps(s, StartBegin(cmd, valid));
    RefusedStays(Apply(s, StartBegin(cmd, valid)), acts, t, |s.starts|);
  }

  /** Nor does one that failed before it spawned a child. */
  lemma FailedStartSpawnsNothing(s: State, c: nat, acts: seq<Action>, t: State)
    requires Reachable(s) && Enabled(s, StartFail(c))
    requires Run(Apply(s, StartFail(c)), acts, t)
    ensures forall i :: 0 <= i < |t.incs| ==> t.incs[i].owner != c
  {
    ReachableInv(s);
    StepKeeps(s, StartFail(c));
    var u := Apply(s, StartFail(c));
    assert u == ApplyStart(s, StartFail(c));
    RefusedStays(u, acts, t, c);
  }

  lemma {:induction false} EventsGrow(s: State, acts: seq<Action>, t: State)
    requires Run(s, acts, t)
    ensures s.events <= t.events
    decreases |acts|
  {
    if acts != [] {
      var u := Apply(s, acts[0]);
      EventsGrowStep(s, acts[0]);
      EventsGrow(u, acts[1..], t);
    }
  }

  lemma EventsGrowStep(s: State, a: Action)
    requires Enabled(s, a)
    ensures s.events <= Apply(s, a).events
  {
    if StartAction(a) {
      assert Apply(s, a) == ApplyStart(s, a);
    } else if ChildAction(a) {
      assert ApplyChild(s, a).events == s.events;
    } else if ReaderAction(a) {
      assert ApplyReader(s, a).events == s.events;
    } else if MonitorAction(a) {
      assert Apply(s, a) == ApplyMonitor(s, a);
    } else if StopAction(a) {
      assert ApplyStop(s, a).events == s.events;
    } else {
      assert ApplyRestart(s, a).events == s.events;
    }
  }

  /** A call that fails once past its first check reports an error: on the way to its child, or when it has lost
      the second check and reaped the child. */
  lemma FailedStartIsReported(s: State, c: nat, a: Action, acts: seq<Action>, t: State)
    requires Enabled(s, a) && (a == StartFail(c) || a == ReapLoser(c))
    requires Run(Apply(s, a), acts, t)
    ensures StartError(c) in t.events
  {
    var u := Apply(s, a);
    assert u == ApplyStart(s, a);
    assert u.events[|s.events|] == StartError(c);
    EventsGrow(u, acts, t);
  }

  lemma {:induction false} LosingStays(s: State, acts: seq<Action>, t: State, c: nat, i: nat)
    requires Inv(s) && Run(s, acts, t) && c < |s.starts|
    requires (s.starts[c].at.Losing? || s.starts[c].at.Reaping? || s.starts[c].at.Lost?) && s.starts[c].at.i == i
    ensures Inv(t) && c < |t.starts|
    ensures (t.starts[c].at.Losing? || t.starts[c].at.Reaping? || t.starts[c].at.Lost?) && t.starts[c].at.i == i
    decreases |acts|
  {
    if acts != [] {
      var u := Apply(s, acts[0]);
      StepKeeps(s, acts[0]);
      CallMoves(s, acts[0], c);
      LosingStays(u, acts[1..], t, c, i);
    }
  }

  /** A StartBot that finds its bot id taken at the second check never registers its child. */
  lemma LosingStartNeverRegisters(s: State, c: nat, acts: seq<Action>, t: State)
    requires Reachable(s) && Enabled(s, SecondCheck(c)) && s.starts[c].cmd.botId in s.procs
    requires Run(Apply(s, SecondCheck(c)), acts, t)
    ensures s.starts[c].at.i < |t.incs| && !t.incs[s.starts[c].at.i].registered
  {
    ReachableInv(s);
    var i := s.starts[c].at.i;
    var u := SecondCheckLoses(s, c);
    LosingRun(u, acts, t, c, i);
  }

  lemma LosingRun(s: State, acts: seq<Action>, t: State, c: nat, i: nat)
    requires Inv(s) && Run(s, acts, t) && c < |s.starts| && s.starts[c].at == Losing(i)
    ensures i < |t.incs| && !t.incs[i].registered
  {
    LosingStays(s, acts, t, c, i);
    assert CallOk(c, t.starts[c], t.incs);
  }

  lemma SecondCheckLoses(s: State, c: nat) returns (t: State)
    requires Inv(s) && Enabled(s, SecondCheck(c)) && s.starts[c].cmd.botId in s.procs
    ensures t == Apply(s, SecondCheck(c)) && Inv(t) && c < |t.starts| && t.starts[c].at == Losing(s.starts[c].at.i)
  {
    StepKeeps(s, SecondCheck(c));
    t := Apply(s, SecondCheck(c));
    assert t == ApplyStart(s, SecondCheck(c));
  }

  // ---------------------------------------------------------------------------------------------
  // RestartBot
  // ---------------------------------------------------------------------------------------------

  /** The call stops the bot first, or has failed to. */
  predicate ThroughStop(at: RestartAt) {
    at.WillStop? || at.Stopping? || (at.ReadyToStart? && at.stopped.Some?) || (at.Starting? && at.stopped.Some?)
    || at.RestartFailed?
  }

  predicate WithoutStop(at: RestartAt) {
    at == ReadyToStart(None) || (at.Starting? && at.stopped.None?)
  }

  lemma RestartMoves(s: State, a: Action, r: nat)
    requires Enabled(s, a) && r < |s.restarts|
    ensures r < |Apply(s, a).restarts|
    ensures ThroughStop(s.restarts[r].at) ==> ThroughStop(Apply(s, a).restarts[r].at)
    ensures WithoutStop(s.restarts[r].at) ==> WithoutStop(Apply(s, a).restarts[r].at)
  {
    if StartAction(a) {
      assert ApplyStart(s, a).restarts == s.restarts;
    } else if ChildAction(a) {
      assert ApplyChild(s, a).restarts == s.restarts;
    } else if ReaderAction(a) {
      assert ApplyReader(s, a).restarts == s.restarts;
    } else if MonitorAction(a) {
      assert ApplyMonitor(s, a).restarts == s.restarts;
    } else if StopAction(a) {
      assert ApplyStop(s, a).restarts == s.restarts;
    } else {
      assert Apply(s, a) == ApplyRestart(s, a);
    }
  }

  lemma {:induction false} RestartStays(s: State, acts: seq<Action>, t: State, r: nat)
    requires Run(s, acts, t) && r < |s.restarts|
    ensures r < |t.restarts|
    ensures ThroughStop(s.restarts[r].at) ==> ThroughStop(t.restarts[r].at)
    ensures WithoutStop(s.restarts[r].at) ==> WithoutStop(t.restarts[r].at)
    decreases |acts|
  {
    if acts != [] {
      var u := Apply(s, acts[0]);
      RestartMoves(s, acts[0], r);
      RestartStays(u, acts[1..], t, r);
    }
  }

  /** RestartBot goes through StopBot exactly if it found the bot running: from then on, in every run. */
  lemma RestartStopsIff(s: State, r: nat, acts: seq<Action>, t: State)
    requires Enabled(s, RestartLook(r)) && Run(Apply(s, RestartLook(r)), acts, t)
    ensures r < |t.restarts|
    ensures if s.restarts[r].botId in s.procs then ThroughStop(t.restarts[r].at) else WithoutStop(t.restarts[r].at)
  {
    var u := Apply(s, RestartLook(r));
    assert u == ApplyRestart(s, RestartLook(r));
    RestartStays(u, acts, t, r);
  }

  lemma {:induction false} ConfigStays(s: State, acts: seq<Action>, t: State, b: string)
    requires Run(s, acts, t) && b in s.configs
    ensures b in t.configs
    decreases |acts|
  {
    if acts != [] {
      var u := Apply(s, acts[0]);
      ConfigStep(s, acts[0], b);
      ConfigStays(u, acts[1..], t, b);
    }
  }

  lemma ConfigStep(s: State, a: Action, b: string)
    requires Enabled(s, a) && b in s.configs
    ensures b in Apply(s, a).configs
  {
    if StartAction(a) {
      assert Apply(s, a) == ApplyStart(s, a);
    } else if ChildAction(a) {
      assert ApplyChild(s, a).configs == s.configs;
    } else if ReaderAction(a) {
      assert ApplyReader(s, a).configs == s.configs;
    } else if MonitorAction(a) {
      assert ApplyMonitor(s, a).configs == s.configs;
    } else if StopAction(a) {
      assert ApplyStop(s, a).configs == s.configs;
    } else {
      assert Apply(s, a) == ApplyRestart(s, a);
    }
  }

  lemma RestartLooksAtNothing(s: State, b: string) returns (t: State)
    requires b !in s.procs && b in s.configs
    ensures Run(s, [RestartBegin(b), RestartLook(|s.restarts|)], t)
    ensures t == s.(restarts := s.restarts + [RestartCall(b, Some(s.configs[b]), ReadyToStart(None))])
  {
    var r := |s.restarts|;
    var mid := Apply(s, RestartBegin(b));
    assert mid == s.(restarts := s.restarts + [RestartCall(b, Some(s.configs[b]), ConfigRead)]);
    OneStep(s, RestartBegin(b));
    t := Extend(s, [RestartBegin(b)], mid, RestartLook(r));
    assert [RestartBegin(b)] + [RestartLook(r)] == [RestartBegin(b), RestartLook(r)];
    assert t == ApplyRestart(mid, RestartLook(r));
  }

  /** A bot that once ran and has ended, by itself or stopped, however long ago, can be brought up again with
      the command saved for it. */
  lemma EndedBotRestarts(s: State, before: seq<Action>, u: State, b: string) returns (acts: seq<Action>, t: State)
    requires Reachable(s) && b in s.procs && Run(s, before, u) && b !in u.procs
    ensures b in u.configs && u.configs[b].botId == b
    ensures Run(u, acts, t) && b in t.procs && t.procs[b] == |u.incs| < |t.incs| && t.incs[|u.incs|].cmd == u.configs[b]
    ensures t.events == u.events + [Running(|u.incs|)]
  {
    ReachableInv(s);
    RunKeeps(s, before, u);
    ConfigStays(s, before, u, b);
    var r, c := |u.restarts|, |u.starts|;
    var looked := RestartLooksAtNothing(u, b);
    var called := Extend(u, [RestartBegin(b), RestartLook(r)], looked, RestartStart(r, true));
    assert called == ApplyRestart(looked, RestartStart(r, true));
    t := CheckedCallRuns(called, c);
    acts := [RestartBegin(b), RestartLook(r)] + [RestartStart(r, true)] + StartSteps(c);
    RunsJoin(u, [RestartBegin(b), RestartLook(r)] + [RestartStart(r, true)], called, StartSteps(c), t);
  }

  /** RestartBot b, call r, has called StopBot, call k, which waits for incarnation i. */
  ghost predicate StopWaits(s: State, t: State, b: string, r: nat, k: nat, i: nat) {
    && b in s.configs && r < |t.restarts| && t.restarts[r] == RestartCall(b, Some(s.configs[b]), Stopping(k))
    && k < |t.stops| && t.stops[k] == StopCall(b, Waiting(i))
    && t.procs == s.procs && t.configs == s.configs && |t.incs| == |s.incs| && |t.starts| == |s.starts|
  }

  lemma RestartBegins(s: State, b: string) returns (acts: seq<Action>, t: State)
    requires Inv(s) && b in s.procs
    ensures b in s.configs && s.procs[b] < |s.incs|
    ensures Run(s, acts, t) && Inv(t) && StopWaits(s, t, b, |s.restarts|, |s.stops|, s.procs[b])
  {
    var r, k := |s.restarts|, |s.stops|;
    var mid := RestartLooks(s, b);
    t := StopBegins(mid, b, r);
    acts := [RestartBegin(b), RestartLook(r)] + [RestartStop(r), StopFlag(k)];
    RunsJoin(s, [RestartBegin(b), RestartLook(r)], mid, [RestartStop(r), StopFlag(k)], t);
    RunKeeps(s, acts, t);
  }

  lemma RestartLooks(s: State, b: string) returns (t: State)
    requires b in s.procs && b in s.configs
    ensures Run(s, [RestartBegin(b), RestartLook(|s.restarts|)], t)
    ensures t == s.(restarts := s.restarts + [RestartCall(b, Some(s.configs[b]), WillStop)])
  {
    var r := |s.restarts|;
    var mid := Apply(s, RestartBegin(b));
    assert mid == s.(restarts := s.restarts + [RestartCall(b, Some(s.configs[b]), ConfigRead)]);
    OneStep(s, RestartBegin(b));
    t := Extend(s, [RestartBegin(b)], mid, RestartLook(r));
    assert [RestartBegin(b)] + [RestartLook(r)] == [RestartBegin(b), RestartLook(r)];
    assert t == ApplyRestart(mid, RestartLook(r));
  }

  lemma StopBegins(s: State, b: string, r: nat) returns (t: State)
    requires b in s.procs && s.procs[b] < |s.incs| && r < |s.restarts|
    requires s.restarts[r].at == WillStop && s.restarts[r].botId == b
    ensures Run(s, [RestartStop(r), StopFlag(|s.stops|)], t)
    ensures var i := s.procs[b];
            t == s.(restarts := s.restarts[r := s.restarts[r].(at := Stopping(|s.stops|))],
                    stops := s.stops + [StopCall(b, Waiting(i))],
                    incs := s.incs[i := s.incs[i].(stopRequested := true)])
  {
    var k, i := |s.stops|, s.procs[b];
    var mid := Apply(s, RestartStop(r));
    assert mid == ApplyRestart(s, RestartStop(r));
    assert mid.stops[k] == StopCall(b, Captured(i));
    OneStep(s, RestartStop(r));
    t := Extend(s, [RestartStop(r)], mid, StopFlag(k));
    assert [RestartStop(r)] + [StopFlag(k)] == [RestartStop(r), StopFlag(k)];
    assert t.stops == s.stops + [StopCall(b, Waiting(i))];
  }

  /** The child exits and its output ends. */
  lemma ChildEnds(s: State, i: nat) returns (acts: seq<Action>, t: State)
    requires Inv(s) && i < |s.incs| && s.incs[i].registered
    ensures Run(s, acts, t) && Inv(t) && OthersStand(s, t) && Ended(t.incs[i])
  {
    acts, t := [], s;
    if !s.incs[i].exited {
      t := Extend(s, [], s, ChildExits(i, false));
      acts := [] + [ChildExits(i, false)];
    }
    if !t.incs[i].eof {
      var u := t;
      t := Extend(s, acts, u, ChildEof(i));
      acts := acts + [ChildEof(i)];
    }
    RunKeeps(s, acts, t);
  }

  /** Incarnation i of bot b is over: Done is closed and the entry is gone. */
  lemma OverIsGone(s: State, b: string, i: nat)
    requires Inv(s) && i < |s.incs| && s.incs[i].done == 1 && (b in s.procs ==> s.procs[b] == i)
    ensures b !in s.procs
  {
    assert IncOk(i, s.incs[i]);
  }

  /** StopBot returns, and RestartBot sees it. */
  lemma StopReturns(s: State, r: nat, k: nat, i: nat) returns (t: State)
    requires r < |s.restarts| && s.restarts[r].at == Stopping(k)
    requires k < |s.stops| && s.stops[k].at == Waiting(i) && i < |s.incs| && s.incs[i].done > 0
    ensures Run(s, [StopReturn(k), RestartStopped(r)], t)
    ensures t == s.(stops := s.stops[k := s.stops[k].(at := StoppedNil(i))],
                    restarts := s.restarts[r := s.restarts[r].(at := ReadyToStart(Some(i)))])
  {
    var mid := Apply(s, StopReturn(k));
    assert mid == s.(stops := s.stops[k := s.stops[k].(at := StoppedNil(i))]);
    OneStep(s, StopReturn(k));
    t := Extend(s, [StopReturn(k)], mid, RestartStopped(r));
    assert [StopReturn(k)] + [RestartStopped(r)] == [StopReturn(k), RestartStopped(r)];
    assert t == ApplyRestart(mid, RestartStopped(r));
  }

  /** And it calls StartBot. */
  lemma RestartStarts(s: State, r: nat, k: nat, i: nat) returns (t: State)
    requires r < |s.restarts| && s.restarts[r].at == Stopping(k) && s.restarts[r].config.Some?
    requires k < |s.stops| && s.stops[k].at == Waiting(i) && i < |s.incs| && s.incs[i].done > 0
    requires s.restarts[r].config.value.botId !in s.procs
    ensures Run(s, [StopReturn(k), RestartStopped(r)] + [RestartStart(r, true)], t)
    ensures t == s.(stops := s.stops[k := s.stops[k].(at := StoppedNil(i))],
                    restarts := s.restarts[r := s.restarts[r].(at := Starting(|s.starts|, Some(i)))],
                    starts := s.starts + [StartCall(s.restarts[r].config.value, Checked)])
  {
    var mid := StopReturns(s, r, k, i);
    t := Extend(s, [StopReturn(k), RestartStopped(r)], mid, RestartStart(r, true));
    assert t == ApplyRestart(mid, RestartStart(r, true));
    assert t.restarts == s.restarts[r := s.restarts[r].(at := Starting(|s.starts|, Some(i)))];
  }

  ghost predicate OverAndAgain(t: State, cmd: Command, before: nat, now: nat) {
    && before < |t.incs| && t.incs[before].done == 1 && HasTerminal(t.events, before)
    && now < |t.incs| && t.incs[now].cmd == cmd && t.incs[now].registered
    && !t.incs[now].exited && !t.incs[now].stopRequested
    && t.events != [] && t.events[|t.events| - 1] == Running(now)
  }

  /** The old incarnation of the bot of cmd is over, and it runs cmd as a new one, after the old one's status. */
  ghost predicate Restarted(s: State, t: State, cmd: Command) {
    && cmd.botId in s.procs && cmd.botId in t.procs
    && OverAndAgain(t, cmd, s.procs[cmd.botId], t.procs[cmd.botId])
    && s.procs[cmd.botId] < |s.incs| <= t.procs[cmd.botId]
  }

  /** RestartBot restarts: from every reachable state in which the bot runs there is a run of one RestartBot
      call, its StopBot and StartBot calls, the child's exit and the goroutines' own steps that brings
      the saved command up as a new incarnation. */
  lemma RestartBotRestarts(s: State, b: string) returns (acts: seq<Action>, t: State)
    requires Reachable(s) && b in s.procs
    ensures b in s.configs && s.configs[b].botId == b
    ensures Run(s, acts, t) && Restarted(s, t, s.configs[b])
  {
    ReachableInv(s);
    var begun, s1 := RestartBegins(s, b);
    var r, k, i := |s.restarts|, |s.stops|, s.procs[b];
    var stopped, s2 := StopFinishes(s1, i);
    assert StopOk(s1.stops[k], s1.incs);
    OverIsGone(s2, b, i);
    var s3 := RestartStarts(s2, r, k, i);
    t := CheckedCallRuns(s3, |s2.starts|);
    var last := [StopReturn(k), RestartStopped(r)] + [RestartStart(r, true)];
    RunsJoin(s2, last, s3, StartSteps(|s2.starts|), t);
    RunsJoin(s1, stopped, s2, last + StartSteps(|s2.starts|), t);
    RunsJoin(s, begun, s1, stopped + (last + StartSteps(|s2.starts|)), t);
    acts := begun + (stopped + (last + StartSteps(|s2.starts|)));
    RestartedNow(s, s2, s3, t, s.configs[b], i);
  }

  /** The child ends and its goroutines finish. */
  lemma StopFinishes(s: State, i: nat) returns (acts: seq<Action>, t: State)
    requires Inv(s) && i < |s.incs| && s.incs[i].registered
    ensures Run(s, acts, t) && Inv(t) && OthersStand(s, t) && t.incs[i].done == 1
  {
    var ends, mid := ChildEnds(s, i);
    var own;
    own, t := OwnStepsSuffice(mid, i);
    RunsJoin(s, ends, mid, own, t);
    acts := ends + own;
  }

  lemma RestartedNow(s: State, s2: State, s3: State, t: State, cmd: Command, i: nat)
    requires Inv(s2) && i < |s.incs| == |s2.incs| && s2.incs[i].done == 1
    requires cmd.botId in s.procs && s.procs[cmd.botId] == i
    requires s3.incs == s2.incs && s3.events == s2.events && RunsNew(s3, t, cmd, |s2.starts|)
    ensures Restarted(s, t, cmd)
  {
    assert IncOk(i, s2.incs[i]) && HasTerminal(s2.events, i);
    assert t.incs[i] == t.incs[..|s3.incs|][i];
    HasTerminalKept(s2.events, t.events);
  }
}
