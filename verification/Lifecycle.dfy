/** The bot process lifecycle of internal/process/manager.go as a state machine: any number of
    StartBot, StopBot and RestartBot calls, the children they spawn, and one readStdout and one
    monitorProcess goroutine per child, one atomic step at a time.

    An incarnation is one spawned child with its BotProcess; it is named by a number. The goroutines
    know only their bot id and find a BotProcess by looking the id up, so each keeps the number it
    found, which is for the proof to show to be its own. */
module Lifecycle {
  import opened Prelude

  /** A create_bot command: the bot it is for and everything else about it. */
  datatype Command = Command(botId: string, body: string)

  /** Why a bot ended: cmd.Wait's error, or the exit code it reported. */
  datatype Status = Stopped | WaitError | ExitCode(code: int)

  datatype Reader = RNone | RSpawned | RReading(target: nat) | RClosed | RLost

  datatype Monitor =
    | MNone
    | MSpawned
    | MWaiting(target: nat)                             // in cmd.Wait
    | MReaped(target: nat, failed: bool)                // waiting for StdoutDone
    | MDrained(target: nat, failed: bool)               // about to load stopRequested
    | MStopLoaded(target: nat, failed: bool, stop: bool)
    | MDecided(target: nat, status: Status)             // about to delete the registry entry
    | MDeleted(target: nat, status: Status)             // about to send the status
    | MEmitted(target: nat)                             // about to close Done
    | MFinished
    | MLost

  /** exitCodes (every exit line its own reader handled) and loadedStop are history. */
  datatype Inc = Inc(
    cmd: Command,
    owner: nat,             // the StartBot call that spawned it
    registered: bool,
    exited: bool,           // the child has exited
    failed: bool,           // and cmd.Wait will return an error
    killed: bool,
    reaped: bool,
    lines: nat,             // stdout lines not read yet
    eof: bool,              // and no more will come
    stdoutDone: nat,        // times StdoutDone was closed
    done: nat,              // times Done was closed
    stopRequested: bool,
    reportedExit: int,
    exitCodes: seq<int>,
    loadedStop: Option<bool>,
    reader: Reader,
    monitor: Monitor
  )

  datatype StartAt =
    | Checked                // passed the first check
    | Holding(i: nat)        // child spawned, second check to come
    | Losing(i: nat)         // lost the second check: about to kill the child
    | Reaping(i: nat)        // and to wait for it
    | Registered(i: nat)     // about to start the reader
    | ReaderUp(i: nat)       // about to start the monitor
    | MonitorUp(i: nat)      // about to send "running"
    | Succeeded(i: nat)
    | Refused                // returned an error without having spawned a child
    | Lost(i: nat)           // returned an error after losing the second check

  datatype StartCall = StartCall(cmd: Command, at: StartAt)

  datatype StopError = NotRunning | KillFailed

  datatype StopAt =
    | Captured(i: nat)
    | Waiting(i: nat)        // stop requested, waiting for Done or the timer
    | KillSent(i: nat)       // waiting for Done
    | StoppedNil(i: nat)     // returned nil
    | StopFailed(error: StopError)

  datatype StopCall = StopCall(botId: string, at: StopAt)

  datatype RestartAt =
    | ConfigRead
    | WillStop
    | Stopping(stop: nat)
    | ReadyToStart(stopped: Option<nat>)
    | Starting(start: nat, stopped: Option<nat>)
    | RestartFailed

  datatype RestartCall = RestartCall(botId: string, config: Option<Command>, at: RestartAt)

  /** sendBotStatus calls. */
  datatype Event = Running(i: nat) | Terminal(i: nat, status: Status) | StartError(call: nat)

  datatype State = State(
    procs: map<string, nat>,
    configs: map<string, Command>,
    incs: seq<Inc>,
    starts: seq<StartCall>,
    stops: seq<StopCall>,
    restarts: seq<RestartCall>,
    events: seq<Event>
  )

  const INITIAL := State(map[], map[], [], [], [], [], [])

  /** A line of stdout as handleStdoutLine sees it. */
  datatype Line = Exit(code: int) | Other

  datatype Action =
    | StartBegin(cmd: Command, valid: bool)
    | StartFail(c: nat)              // credentials, files, python, pipes
    | Spawn(c: nat)
    | SecondCheck(c: nat)
    | KillLoser(c: nat)
    | ReapLoser(c: nat)
    | SpawnReader(c: nat)
    | SpawnMonitor(c: nat)
    | EmitRunning(c: nat)
    | ChildWrites(i: nat)
    | ChildExits(i: nat, failed: bool)
    | ChildEof(i: nat)
    | ReaderLookup(i: nat)
    | ReadLine(i: nat, line: Line)
    | ReadEnd(i: nat, broken: bool)  // end of output, or an error such as a pipe cut by cmd.Wait
    | MonitorLookup(i: nat)
    | MonitorWait(i: nat)
    | MonitorDrain(i: nat)
    | MonitorLoadStop(i: nat)
    | MonitorLoadExit(i: nat)
    | MonitorDelete(i: nat)
    | MonitorEmit(i: nat)
    | MonitorFinish(i: nat)
    | StopBegin(botId: string)
    | StopFlag(k: nat)
    | StopTimeout(k: nat, killOk: bool)
    | StopReturn(k: nat)
    | RestartBegin(botId: string)
    | RestartLook(r: nat)
    | RestartStop(r: nat)
    | RestartStopped(r: nat)
    | RestartStart(r: nat, valid: bool)

  /** Go's int32(code): keep the low 32 bits, as a signed number. */
  function Int32(code: int): (r: int)
    ensures -0x8000_0000 <= r < 0x8000_0000 && (r - code) % 0x1_0000_0000 == 0
  {
    var low := code % 0x1_0000_0000;
    if low < 0x8000_0000 then low else low - 0x1_0000_0000
  }

  /** What monitorProcess decides. */
  function Verdict(failed: bool, stop: bool, reportedExit: int): Status {
    if failed && !stop then WaitError
    else if reportedExit != 0 && !stop then ExitCode(reportedExit)
    else Stopped
  }

  function NewInc(cmd: Command, owner: nat): Inc {
    Inc(cmd, owner, false, false, false, false, false, 0, false, 0, 0, false, 0, [], None, RNone, MNone)
  }

  // ---- state updates ----

  function WithInc(s: State, i: nat, inc: Inc): State {
    if i < |s.incs| then s.(incs := s.incs[i := inc]) else s
  }

  function WithStart(s: State, c: nat, at: StartAt): State {
    if c < |s.starts| then s.(starts := s.starts[c := s.starts[c].(at := at)]) else s
  }

  function WithStop(s: State, k: nat, at: StopAt): State {
    if k < |s.stops| then s.(stops := s.stops[k := s.stops[k].(at := at)]) else s
  }

  function WithRestart(s: State, r: nat, at: RestartAt): State {
    if r < |s.restarts| then s.(restarts := s.restarts[r := s.restarts[r].(at := at)]) else s
  }

  function Log(s: State, e: Event): State {
    s.(events := s.events + [e])
  }

  function BeginStart(s: State, cmd: Command, valid: bool): State {
    s.(starts := s.starts + [StartCall(cmd, if !valid || cmd.botId in s.procs then Refused else Checked)])
  }

  function BeginStop(s: State, botId: string): State {
    var at := if botId in s.procs then Captured(s.procs[botId]) else StopFailed(NotRunning);
    s.(stops := s.stops + [StopCall(botId, at)])
  }

  // ---- the machine ----

  /** The incarnation a StartBot call is working on. */
  function Child(at: StartAt): Option<nat> {
    match at
    case Holding(i) => Some(i)
    case Losing(i) => Some(i)
    case Reaping(i) => Some(i)
    case Registered(i) => Some(i)
    case ReaderUp(i) => Some(i)
    case MonitorUp(i) => Some(i)
    case Succeeded(i) => Some(i)
    case Lost(i) => Some(i)
    case Checked => None
    case Refused => None
  }

  predicate ChildExists(s: State, c: nat) {
    c < |s.starts| && (Child(s.starts[c].at).Some? ==> Child(s.starts[c].at).value < |s.incs|)
  }

  function Target(m: Monitor): Option<nat> {
    match m
    case MWaiting(t) => Some(t)
    case MReaped(t, _) => Some(t)
    case MDrained(t, _) => Some(t)
    case MStopLoaded(t, _, _) => Some(t)
    case MDecided(t, _) => Some(t)
    case MDeleted(t, _) => Some(t)
    case MEmitted(t) => Some(t)
    case _ => None
  }

  predicate TargetExists(s: State, i: nat) {
    && i < |s.incs|
    && (Target(s.incs[i].monitor).Some? ==> Target(s.incs[i].monitor).value < |s.incs|)
    && (s.incs[i].reader.RReading? ==> s.incs[i].reader.target < |s.incs|)
  }

  predicate StopExists(s: State, k: nat) {
    k < |s.stops| && match s.stops[k].at
                     case Captured(i) => i < |s.incs|
                     case Waiting(i) => i < |s.incs|
                     case KillSent(i) => i < |s.incs|
                     case _ => true
  }

  predicate Enabled(s: State, a: Action) {
    match a
    case StartBegin(_, _) => true
    case StartFail(c) => c < |s.starts| && s.starts[c].at == Checked
    case Spawn(c) => c < |s.starts| && s.starts[c].at == Checked
    case SecondCheck(c) => ChildExists(s, c) && s.starts[c].at.Holding?
    case KillLoser(c) => ChildExists(s, c) && s.starts[c].at.Losing?
    case ReapLoser(c) => ChildExists(s, c) && s.starts[c].at.Reaping? && s.incs[s.starts[c].at.i].exited
    case SpawnReader(c) => ChildExists(s, c) && s.starts[c].at.Registered?
    case SpawnMonitor(c) => ChildExists(s, c) && s.starts[c].at.ReaderUp?
    case EmitRunning(c) => ChildExists(s, c) && s.starts[c].at.MonitorUp?
    case ChildWrites(i) => i < |s.incs| && !s.incs[i].eof
    case ChildExits(i, _) => i < |s.incs| && !s.incs[i].exited
    case ChildEof(i) => i < |s.incs| && !s.incs[i].eof
    case ReaderLookup(i) => i < |s.incs| && s.incs[i].reader == RSpawned
    case ReadLine(i, _) => TargetExists(s, i) && s.incs[i].reader.RReading? && s.incs[i].lines > 0
    case ReadEnd(i, broken) => TargetExists(s, i) && s.incs[i].reader.RReading?
      && (broken || (s.incs[i].eof && s.incs[i].lines == 0))
    case MonitorLookup(i) => i < |s.incs| && s.incs[i].monitor == MSpawned
    case MonitorWait(i) => TargetExists(s, i) && s.incs[i].monitor.MWaiting? && s.incs[i].exited
    case MonitorDrain(i) => TargetExists(s, i) && s.incs[i].monitor.MReaped?
      && s.incs[s.incs[i].monitor.target].stdoutDone > 0
    case MonitorLoadStop(i) => TargetExists(s, i) && s.incs[i].monitor.MDrained?
    case MonitorLoadExit(i) => TargetExists(s, i) && s.incs[i].monitor.MStopLoaded?
    case MonitorDelete(i) => TargetExists(s, i) && s.incs[i].monitor.MDecided?
    case MonitorEmit(i) => TargetExists(s, i) && s.incs[i].monitor.MDeleted?
    case MonitorFinish(i) => TargetExists(s, i) && s.incs[i].monitor.MEmitted?
    case StopBegin(_) => true
    case StopFlag(k) => StopExists(s, k) && s.stops[k].at.Captured?
    case StopTimeout(k, _) => StopExists(s, k) && s.stops[k].at.Waiting?
    case StopReturn(k) => StopExists(s, k) && (s.stops[k].at.Waiting? || s.stops[k].at.KillSent?)
      && s.incs[s.stops[k].at.i].done > 0
    case RestartBegin(_) => true
    case RestartLook(r) => r < |s.restarts| && s.restarts[r].at == ConfigRead
    case RestartStop(r) => r < |s.restarts| && s.restarts[r].at == WillStop
    case RestartStopped(r) =>
      && r < |s.restarts| && s.restarts[r].at.Stopping? && s.restarts[r].at.stop < |s.stops|
      && (s.stops[s.restarts[r].at.stop].at.StoppedNil? || s.stops[s.restarts[r].at.stop].at.StopFailed?)
    case RestartStart(r, _) => r < |s.restarts| && s.restarts[r].at.ReadyToStart? && s.restarts[r].config.Some?
  }

  function ApplyStart(s: State, a: Action): State
    requires Enabled(s, a)
  {
    match a
    case StartBegin(cmd, valid) => BeginStart(s, cmd, valid)
    case StartFail(c) => Log(WithStart(s, c, Refused), StartError(c))
    case Spawn(c) => WithStart(s.(incs := s.incs + [NewInc(s.starts[c].cmd, c)]), c, Holding(|s.incs|))
    case SecondCheck(c) =>
      var i, cmd := s.starts[c].at.i, s.starts[c].cmd;
      if cmd.botId in s.procs then WithStart(s, c, Losing(i))
      else
        WithInc(WithStart(s, c, Registered(i)), i, s.incs[i].(registered := true))
        .(procs := s.procs[cmd.botId := i], configs := s.configs[cmd.botId := cmd])
    case KillLoser(c) =>
      var i := s.starts[c].at.i;
      WithInc(WithStart(s, c, Reaping(i)), i, s.incs[i].(killed := true))
    case ReapLoser(c) =>
      var i := s.starts[c].at.i;
      Log(WithInc(WithStart(s, c, Lost(i)), i, s.incs[i].(reaped := true)), StartError(c))
    case SpawnReader(c) =>
      var i := s.starts[c].at.i;
      WithInc(WithStart(s, c, ReaderUp(i)), i, s.incs[i].(reader := RSpawned))
    case SpawnMonitor(c) =>
      var i := s.starts[c].at.i;
      WithInc(WithStart(s, c, MonitorUp(i)), i, s.incs[i].(monitor := MSpawned))
    case EmitRunning(c) => Log(WithStart(s, c, Succeeded(s.starts[c].at.i)), Running(s.starts[c].at.i))
    case _ => s
  }

  function ApplyChild(s: State, a: Action): State
    requires Enabled(s, a)
  {
    match a
    case ChildWrites(i) => WithInc(s, i, s.incs[i].(lines := s.incs[i].lines + 1))
    case ChildExits(i, failed) => WithInc(s, i, s.incs[i].(exited := true, failed := failed))
    case ChildEof(i) => WithInc(s, i, s.incs[i].(eof := true))
    case _ => s
  }

  /** handleStdoutLine looks the bot up again for an exit line. */
  function StoreExit(s: State, botId: string, code: int): State {
    if botId in s.procs && s.procs[botId] < |s.incs| then
      var q := s.procs[botId];
      WithInc(s, q, s.incs[q].(reportedExit := Int32(code)))
    else s
  }

  function ApplyReader(s: State, a: Action): State
    requires Enabled(s, a)
  {
    match a
    case ReaderLookup(i) =>
      var botId := s.incs[i].cmd.botId;
      WithInc(s, i, s.incs[i].(reader := if botId in s.procs then RReading(s.procs[botId]) else RLost))
    case ReadLine(i, line) =>
      var s' := WithInc(s, i, s.incs[i].(
        lines := s.incs[i].lines - 1,
        exitCodes := if line.Exit? then s.incs[i].exitCodes + [line.code] else s.incs[i].exitCodes));
      if line.Exit? then StoreExit(s', s.incs[i].cmd.botId, line.code) else s'
    case ReadEnd(i, _) =>
      var t := s.incs[i].reader.target;
      var s' := WithInc(s, i, s.incs[i].(reader := RClosed));
      if t < |s'.incs| then WithInc(s', t, s'.incs[t].(stdoutDone := s'.incs[t].stdoutDone + 1)) else s'
    case _ => s
  }

  function ApplyMonitor(s: State, a: Action): State
    requires Enabled(s, a)
  {
    match a
    case MonitorLookup(i) =>
      var botId := s.incs[i].cmd.botId;
      WithInc(s, i, s.incs[i].(monitor := if botId in s.procs then MWaiting(s.procs[botId]) else MLost))
    case MonitorWait(i) =>
      var inc := s.incs[i];
      WithInc(s, i, inc.(reaped := true, monitor := MReaped(inc.monitor.target, inc.failed)))
    case MonitorDrain(i) =>
      var inc := s.incs[i];
      WithInc(s, i, inc.(monitor := MDrained(inc.monitor.target, inc.monitor.failed)))
    case MonitorLoadStop(i) =>
      var inc := s.incs[i];
      var stop := s.incs[inc.monitor.target].stopRequested;
      WithInc(s, i, inc.(monitor := MStopLoaded(inc.monitor.target, inc.monitor.failed, stop),
                         loadedStop := Some(stop)))
    case MonitorLoadExit(i) =>
      var inc := s.incs[i];
      var m := inc.monitor;
      WithInc(s, i, inc.(monitor := MDecided(m.target, Verdict(m.failed, m.stop, s.incs[m.target].reportedExit))))
    case MonitorDelete(i) =>
      var inc := s.incs[i];
      WithInc(s, i, inc.(monitor := MDeleted(inc.monitor.target, inc.monitor.status)))
      .(procs := s.procs - {inc.cmd.botId})
    case MonitorEmit(i) =>
      var inc := s.incs[i];
      Log(WithInc(s, i, inc.(monitor := MEmitted(inc.monitor.target))), Terminal(i, inc.monitor.status))
    case MonitorFinish(i) =>
      var t := s.incs[i].monitor.target;
      var s' := WithInc(s, i, s.incs[i].(monitor := MFinished));
      if t < |s'.incs| then WithInc(s', t, s'.incs[t].(done := s'.incs[t].done + 1)) else s'
    case _ => s
  }

  function ApplyStop(s: State, a: Action): State
    requires Enabled(s, a)
  {
    match a
    case StopBegin(botId) => BeginStop(s, botId)
    case StopFlag(k) =>
      var i := s.stops[k].at.i;
      WithInc(WithStop(s, k, Waiting(i)), i, s.incs[i].(stopRequested := true))
    case StopTimeout(k, killOk) =>
      var i := s.stops[k].at.i;
      if killOk then WithInc(WithStop(s, k, KillSent(i)), i, s.incs[i].(killed := true))
      else WithStop(s, k, StopFailed(KillFailed))
    case StopReturn(k) => WithStop(s, k, StoppedNil(s.stops[k].at.i))
    case _ => s
  }

  function ApplyRestart(s: State, a: Action): State
    requires Enabled(s, a)
  {
    match a
    case RestartBegin(botId) =>
      s.(restarts := s.restarts + [if botId in s.configs then RestartCall(botId, Some(s.configs[botId]), ConfigRead)
                                   else RestartCall(botId, None, RestartFailed)])
    case RestartLook(r) => WithRestart(s, r, if s.restarts[r].botId in s.procs then WillStop else ReadyToStart(None))
    case RestartStop(r) => WithRestart(BeginStop(s, s.restarts[r].botId), r, Stopping(|s.stops|))
    case RestartStopped(r) =>
      var at := s.stops[s.restarts[r].at.stop].at;
      WithRestart(s, r, if at.StoppedNil? then ReadyToStart(Some(at.i)) else RestartFailed)
    case RestartStart(r, valid) =>
      WithRestart(BeginStart(s, s.restarts[r].config.value, valid), r, Starting(|s.starts|, s.restarts[r].at.stopped))
    case _ => s
  }

  predicate StartAction(a: Action) {
    a.StartBegin? || a.StartFail? || a.Spawn? || a.SecondCheck? || a.KillLoser? || a.ReapLoser?
    || a.SpawnReader? || a.SpawnMonitor? || a.EmitRunning?
  }

  predicate ChildAction(a: Action) {
    a.ChildWrites? || a.ChildExits? || a.ChildEof?
  }

  predicate ReaderAction(a: Action) {
    a.ReaderLookup? || a.ReadLine? || a.ReadEnd?
  }

  predicate MonitorAction(a: Action) {
    a.MonitorLookup? || a.MonitorWait? || a.MonitorDrain? || a.MonitorLoadStop? || a.MonitorLoadExit?
    || a.MonitorDelete? || a.MonitorEmit? || a.MonitorFinish?
  }

  predicate StopAction(a: Action) {
    a.StopBegin? || a.StopFlag? || a.StopTimeout? || a.StopReturn?
  }

  function Apply(s: State, a: Action): State
    requires Enabled(s, a)
  {
    if StartAction(a) then ApplyStart(s, a)
    else if ChildAction(a) then ApplyChild(s, a)
    else if ReaderAction(a) then ApplyReader(s, a)
    else if MonitorAction(a) then ApplyMonitor(s, a)
    else if StopAction(a) then ApplyStop(s, a)
    else ApplyRestart(s, a)
  }

  ghost predicate Run(s: State, acts: seq<Action>, t: State)
    decreases |acts|
  {
    if acts == [] then s == t
    else Enabled(s, acts[0]) && Run(Apply(s, acts[0]), acts[1..], t)
  }

  ghost predicate Reachable(t: State) {
    exists acts :: Run(INITIAL, acts, t)
  }
}
