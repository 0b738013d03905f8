/** The inductive invariant of the bot lifecycle, and its preservation. */
module LifecycleInv {
  import opened Prelude
  import opened Lifecycle

  // ---- how far a monitor has come ----

  predicate Waited(m: Monitor) {
    m.MReaped? || Drained(m)
  }

  predicate Drained(m: Monitor) {
    m.MDrained? || StopLoaded(m)
  }

  predicate StopLoaded(m: Monitor) {
    m.MStopLoaded? || m.MDecided? || Past(m)
  }

  /** Its registry entry is gone. */
  predicate Past(m: Monitor) {
    m.MDeleted? || Emitted(m)
  }

  predicate Emitted(m: Monitor) {
    m.MEmitted? || m.MFinished?
  }

  predicate Active(inc: Inc) {
    inc.registered && !Past(inc.monitor)
  }

  function LastExit(codes: seq<int>): int {
    if codes == [] then 0 else Int32(codes[|codes| - 1])
  }

  /** The verdict on an incarnation from its own child, its own flag and its own reader's exit lines. */
  function OwnVerdict(inc: Inc): Status
    requires inc.loadedStop.Some?
  {
    Verdict(inc.failed, inc.loadedStop.value, LastExit(inc.exitCodes))
  }

  /** One incarnation by itself: its goroutines have found it and nobody else, each channel has been
      closed as often as the goroutine that closes it has got there, and what the monitor knows is
      about this incarnation. */
  ghost predicate IncOk(i: nat, inc: Inc) {
    && inc.reader != RLost && (inc.reader.RReading? ==> inc.reader.target == i)
    && inc.monitor != MLost && (Target(inc.monitor).Some? ==> Target(inc.monitor).value == i)
    && inc.stdoutDone == (if inc.reader == RClosed then 1 else 0)
    && inc.done == (if inc.monitor == MFinished then 1 else 0)
    && (Drained(inc.monitor) ==> inc.reader == RClosed)
    && (!inc.registered ==> inc.reader == RNone && inc.monitor == MNone)
    && (inc.monitor != MNone ==> inc.reader != RNone)
    && (inc.registered ==> (inc.reaped <==> Waited(inc.monitor)))
    && (inc.reaped ==> inc.exited) && (inc.failed ==> inc.exited)
    && inc.reportedExit == LastExit(inc.exitCodes)
    && (inc.loadedStop.Some? <==> StopLoaded(inc.monitor))
    && (inc.loadedStop == Some(true) ==> inc.stopRequested)
    && KnowsOwn(inc)
  }

  ghost predicate KnowsOwn(inc: Inc) {
    match inc.monitor
    case MReaped(_, failed) => failed == inc.failed
    case MDrained(_, failed) => failed == inc.failed
    case MStopLoaded(_, failed, stop) => failed == inc.failed && inc.loadedStop == Some(stop)
    case MDecided(_, status) => inc.loadedStop.Some? && status == OwnVerdict(inc)
    case MDeleted(_, status) => inc.loadedStop.Some? && status == OwnVerdict(inc)
    case _ => true
  }

  ghost predicate IncsOk(incs: seq<Inc>) {
    forall i :: 0 <= i < |incs| ==> IncOk(i, incs[i])
  }

  predicate Entry(procs: map<string, nat>, incs: seq<Inc>, i: nat)
    requires i < |incs|
  {
    incs[i].cmd.botId in procs && procs[incs[i].cmd.botId] == i
  }

  /** The registry holds exactly the active incarnations, with the commands that started them saved. */
  ghost predicate RegistryOk(procs: map<string, nat>, configs: map<string, Command>, incs: seq<Inc>) {
    && (forall b :: b in procs ==>
          && procs[b] < |incs| && incs[procs[b]].cmd.botId == b && Active(incs[procs[b]])
          && b in configs && configs[b] == incs[procs[b]].cmd)
    && (forall i :: 0 <= i < |incs| && Active(incs[i]) ==> Entry(procs, incs, i))
    && (forall b :: b in configs ==> configs[b].botId == b)
  }

  /** How far a StartBot call is and how far its child is. */
  predicate StageOk(at: StartAt, inc: Inc) {
    match at
    case Holding(_) => !inc.registered && !inc.reaped
    case Losing(_) => !inc.registered && !inc.reaped
    case Reaping(_) => !inc.registered && !inc.reaped && inc.killed
    case Lost(_) => !inc.registered && inc.reaped && inc.killed
    case Registered(_) => inc.registered && inc.reader == RNone && inc.monitor == MNone
    case ReaderUp(_) => inc.registered && inc.reader != RNone && inc.monitor == MNone
    case MonitorUp(_) => inc.registered && inc.reader != RNone && inc.monitor != MNone
    case Succeeded(_) => inc.registered && inc.reader != RNone && inc.monitor != MNone
    case Checked => true
    case Refused => true
  }

  predicate CallOk(c: nat, call: StartCall, incs: seq<Inc>) {
    var child := Child(call.at);
    child.Some? ==>
      && child.value < |incs|
      && incs[child.value].owner == c
      && incs[child.value].cmd == call.cmd
      && StageOk(call.at, incs[child.value])
  }

  /** Calls and children are matched one to one. */
  ghost predicate OwnersOk(starts: seq<StartCall>, incs: seq<Inc>) {
    && (forall c :: 0 <= c < |starts| ==> CallOk(c, starts[c], incs))
    && (forall i :: 0 <= i < |incs| ==> incs[i].owner < |starts| && Child(starts[incs[i].owner].at) == Some(i))
  }

  predicate IsTerminal(e: Event, i: nat) {
    e.Terminal? && e.i == i
  }

  ghost predicate HasTerminal(events: seq<Event>, i: nat) {
    exists p :: 0 <= p < |events| && IsTerminal(events[p], i)
  }

  predicate EventOk(e: Event, starts: seq<StartCall>, incs: seq<Inc>) {
    match e
    case Terminal(i, status) =>
      i < |incs| && Emitted(incs[i].monitor) && incs[i].loadedStop.Some? && status == OwnVerdict(incs[i])
    case Running(i) =>
      i < |incs| && incs[i].owner < |starts| && starts[incs[i].owner].at == Succeeded(i)
    case StartError(c) => true
  }

  /** One terminal status for each incarnation whose monitor has got there, with its own verdict. */
  ghost predicate EventsOk(events: seq<Event>, starts: seq<StartCall>, incs: seq<Inc>) {
    && (forall p :: 0 <= p < |events| ==> EventOk(events[p], starts, incs))
    && (forall p, q :: 0 <= p < q < |events| && events[p].Terminal? ==> !IsTerminal(events[q], events[p].i))
    && (forall i :: 0 <= i < |incs| && Emitted(incs[i].monitor) ==> HasTerminal(events, i))
  }

  predicate CapturedOk(i: nat, botId: string, incs: seq<Inc>) {
    i < |incs| && incs[i].registered && incs[i].cmd.botId == botId
  }

  predicate StopOk(stop: StopCall, incs: seq<Inc>) {
    match stop.at
    case Captured(i) => CapturedOk(i, stop.botId, incs)
    case Waiting(i) => CapturedOk(i, stop.botId, incs) && incs[i].stopRequested
    case KillSent(i) => CapturedOk(i, stop.botId, incs) && incs[i].stopRequested && incs[i].killed
    case StoppedNil(i) => CapturedOk(i, stop.botId, incs) && incs[i].stopRequested && incs[i].monitor == MFinished
    case StopFailed(_) => true
  }

  ghost predicate StopsOk(stops: seq<StopCall>, incs: seq<Inc>) {
    forall k :: 0 <= k < |stops| ==> StopOk(stops[k], incs)
  }

  /** The stopped incarnation's terminal status is in the trace before any "running" of call c. */
  ghost predicate TerminalBeforeRunning(events: seq<Event>, incs: seq<Inc>, i: nat, c: nat) {
    exists p :: 0 <= p < |events| && IsTerminal(events[p], i) && NoRunningBefore(events, incs, p, c)
  }

  ghost predicate NoRunningBefore(events: seq<Event>, incs: seq<Inc>, p: nat, c: nat) {
    forall q :: 0 <= q < |events| && q <= p && events[q].Running? && events[q].i < |incs| ==>
      incs[events[q].i].owner != c
  }

  predicate StoppedOk(i: nat, botId: string, incs: seq<Inc>) {
    i < |incs| && incs[i].monitor == MFinished && incs[i].cmd.botId == botId
  }

  ghost predicate RestartOk(r: RestartCall, starts: seq<StartCall>, stops: seq<StopCall>, events: seq<Event>,
                            incs: seq<Inc>) {
    && (r.config.Some? ==> r.config.value.botId == r.botId)
    && match r.at
       case Stopping(k) => k < |stops| && stops[k].botId == r.botId
       case ReadyToStart(Some(i)) => StoppedOk(i, r.botId, incs)
       case Starting(c, stopped) =>
         && c < |starts| && Some(starts[c].cmd) == r.config
         && (stopped.Some? ==>
               && StoppedOk(stopped.value, r.botId, incs) && incs[stopped.value].owner != c
               && TerminalBeforeRunning(events, incs, stopped.value, c))
       case _ => true
  }

  ghost predicate RestartsOk(restarts: seq<RestartCall>, starts: seq<StartCall>, stops: seq<StopCall>,
                             events: seq<Event>, incs: seq<Inc>) {
    forall r :: 0 <= r < |restarts| ==> RestartOk(restarts[r], starts, stops, events, incs)
  }

  ghost predicate Inv(s: State) {
    && IncsOk(s.incs)
    && RegistryOk(s.procs, s.configs, s.incs)
    && OwnersOk(s.starts, s.incs)
    && EventsOk(s.events, s.starts, s.incs)
    && StopsOk(s.stops, s.incs)
    && RestartsOk(s.restarts, s.starts, s.stops, s.events, s.incs)
  }

  // ---------------------------------------------------------------------------------------------
  // What a change of the incarnations, the calls or the trace leaves in order
  // ---------------------------------------------------------------------------------------------

  /** The incarnations have moved on, and there may be new ones. */
  ghost predicate Later(incs: seq<Inc>, incs': seq<Inc>) {
    && |incs| <= |incs'|
    && (forall j :: 0 <= j < |incs| ==>
          && incs'[j].cmd == incs[j].cmd && incs'[j].owner == incs[j].owner
          && (incs[j].registered ==> incs'[j].registered)
          && (incs[j].stopRequested ==> incs'[j].stopRequested) && (incs[j].killed ==> incs'[j].killed)
          && (incs[j].monitor == MFinished ==> incs'[j].monitor == MFinished))
  }

  lemma StopsFollow(stops: seq<StopCall>, incs: seq<Inc>, incs': seq<Inc>)
    requires StopsOk(stops, incs) && Later(incs, incs')
    ensures StopsOk(stops, incs')
  {
    forall k | 0 <= k < |stops|
      ensures StopOk(stops[k], incs')
    {
      assert StopOk(stops[k], incs);
    }
  }

  /** Old events keep their order when the trace grows. */
  lemma TerminalOrderKept(events: seq<Event>, incs: seq<Inc>, events': seq<Event>, incs': seq<Inc>, i: nat, c: nat)
    requires TerminalBeforeRunning(events, incs, i, c)
    requires events <= events' && Later(incs, incs')
    requires forall q :: 0 <= q < |events| && events[q].Running? ==> events[q].i < |incs|
    ensures TerminalBeforeRunning(events', incs', i, c)
  {
    var p :| 0 <= p < |events| && IsTerminal(events[p], i) && NoRunningBefore(events, incs, p, c);
    assert IsTerminal(events'[p], i) && NoRunningBefore(events', incs', p, c);
  }

  lemma RunningKnown(events: seq<Event>, starts: seq<StartCall>, incs: seq<Inc>)
    requires EventsOk(events, starts, incs)
    ensures forall q :: 0 <= q < |events| && events[q].Running? ==> events[q].i < |incs|
  {
    assert forall q :: 0 <= q < |events| ==> EventOk(events[q], starts, incs);
  }

  ghost predicate CallsLater(starts: seq<StartCall>, stops: seq<StopCall>, starts': seq<StartCall>,
                             stops': seq<StopCall>) {
    && |starts| <= |starts'| && |stops| <= |stops'|
    && (forall c :: 0 <= c < |starts| ==> starts'[c].cmd == starts[c].cmd)
    && (forall k :: 0 <= k < |stops| ==> stops'[k].botId == stops[k].botId)
  }

  lemma RestartFollows(r: RestartCall, starts: seq<StartCall>, stops: seq<StopCall>, events: seq<Event>, incs: seq<Inc>,
                       starts': seq<StartCall>, stops': seq<StopCall>, events': seq<Event>, incs': seq<Inc>)
    requires RestartOk(r, starts, stops, events, incs)
    requires forall q :: 0 <= q < |events| && events[q].Running? ==> events[q].i < |incs|
    requires CallsLater(starts, stops, starts', stops') && events <= events' && Later(incs, incs')
    ensures RestartOk(r, starts', stops', events', incs')
  {
    if r.at.Starting? && r.at.stopped.Some? {
      TerminalOrderKept(events, incs, events', incs', r.at.stopped.value, r.at.start);
    }
  }

  lemma RestartsFollow(s: State, starts': seq<StartCall>, stops': seq<StopCall>, events': seq<Event>, incs': seq<Inc>)
    requires RestartsOk(s.restarts, s.starts, s.stops, s.events, s.incs) && EventsOk(s.events, s.starts, s.incs)
    requires CallsLater(s.starts, s.stops, starts', stops') && s.events <= events' && Later(s.incs, incs')
    ensures RestartsOk(s.restarts, starts', stops', events', incs')
  {
    RunningKnown(s.events, s.starts, s.incs);
    forall r | 0 <= r < |s.restarts|
      ensures RestartOk(s.restarts[r], starts', stops', events', incs')
    {
      RestartFollows(s.restarts[r], s.starts, s.stops, s.events, s.incs, starts', stops', events', incs');
    }
  }

  /** inc' continues inc as far as StartBot, StopBot and RestartBot calls and the trace can see. */
  ghost predicate SameFace(inc: Inc, inc': Inc) {
    && inc'.cmd == inc.cmd && inc'.owner == inc.owner && inc'.registered == inc.registered
    && Emitted(inc'.monitor) == Emitted(inc.monitor)
    && (inc.monitor == MFinished ==> inc'.monitor == MFinished)
    && (Emitted(inc.monitor) ==> inc.loadedStop.Some? && inc'.loadedStop.Some? && OwnVerdict(inc') == OwnVerdict(inc))
    && (inc'.reader == RNone <==> inc.reader == RNone) && (inc'.monitor == MNone <==> inc.monitor == MNone)
    && (inc.killed ==> inc'.killed) && (inc.stopRequested ==> inc'.stopRequested)
    && (!inc.registered ==> inc'.reaped == inc.reaped)
  }

  /** And as far as the registry can see. */
  ghost predicate Continues(inc: Inc, inc': Inc) {
    SameFace(inc, inc') && (inc.registered ==> Past(inc'.monitor) == Past(inc.monitor))
  }

  lemma LocalRegistry(procs: map<string, nat>, configs: map<string, Command>, incs: seq<Inc>, i: nat, inc': Inc)
    requires RegistryOk(procs, configs, incs) && i < |incs|
    requires inc'.cmd == incs[i].cmd && Active(inc') == Active(incs[i])
    ensures RegistryOk(procs, configs, incs[i := inc'])
  {
    var incs' := incs[i := inc'];
    forall j | 0 <= j < |incs'| && Active(incs'[j])
      ensures Entry(procs, incs', j)
    {
      assert Entry(procs, incs, j);
    }
  }

  lemma LocalOwners(starts: seq<StartCall>, incs: seq<Inc>, i: nat, inc': Inc)
    requires OwnersOk(starts, incs) && i < |incs| && SameFace(incs[i], inc')
    ensures OwnersOk(starts, incs[i := inc'])
  {
    forall c | 0 <= c < |starts|
      ensures CallOk(c, starts[c], incs[i := inc'])
    {
      assert CallOk(c, starts[c], incs);
    }
  }

  lemma LocalEvents(events: seq<Event>, starts: seq<StartCall>, incs: seq<Inc>, i: nat, inc': Inc)
    requires EventsOk(events, starts, incs) && i < |incs| && SameFace(incs[i], inc')
    ensures EventsOk(events, starts, incs[i := inc'])
  {
    forall p | 0 <= p < |events|
      ensures EventOk(events[p], starts, incs[i := inc'])
    {
      assert EventOk(events[p], starts, incs);
    }
  }

  lemma LocalIncs(incs: seq<Inc>, i: nat, inc': Inc)
    requires IncsOk(incs) && i < |incs| && IncOk(i, inc')
    ensures IncsOk(incs[i := inc'])
  {
  }

  /** A step inside one incarnation that nobody else notices. */
  lemma LocalStep(s: State, i: nat, inc': Inc)
    requires Inv(s) && i < |s.incs| && IncOk(i, inc') && Continues(s.incs[i], inc')
    ensures Inv(WithInc(s, i, inc'))
  {
    LocalIncs(s.incs, i, inc');
    LocalRegistry(s.procs, s.configs, s.incs, i, inc');
    LocalOwners(s.starts, s.incs, i, inc');
    LocalEvents(s.events, s.starts, s.incs, i, inc');
    StopsFollow(s.stops, s.incs, s.incs[i := inc']);
    RestartsFollow(s, s.starts, s.stops, s.events, s.incs[i := inc']);
  }

  // ---------------------------------------------------------------------------------------------
  // The child, its reader and its monitor
  // ---------------------------------------------------------------------------------------------

  /** A goroutine that looks its bot up finds its own incarnation: until the monitor has seen
      StdoutDone, which only this reader closes, the entry is there and is this one. */
  lemma FindsItself(s: State, i: nat)
    requires IncsOk(s.incs) && RegistryOk(s.procs, s.configs, s.incs) && i < |s.incs|
    requires s.incs[i].reader == RSpawned || s.incs[i].reader.RReading? || s.incs[i].monitor == MSpawned
             || s.incs[i].monitor.MDecided?
    ensures Active(s.incs[i]) && Entry(s.procs, s.incs, i)
    ensures s.incs[i].reader.RReading? ==> s.incs[i].reader.target == i
  {
    assert IncOk(i, s.incs[i]);
  }

  /** The step changes incarnation i, in a way nobody else notices, and nothing else. */
  ghost predicate IsLocal(s: State, s': State, i: nat) {
    && i < |s.incs| && i < |s'.incs|
    && s' == WithInc(s, i, s'.incs[i])
    && IncOk(i, s'.incs[i]) && Continues(s.incs[i], s'.incs[i])
  }

  lemma ChildStep(s: State, a: Action)
    requires Enabled(s, a) && Inv(s) && ChildAction(a)
    ensures Inv(ApplyChild(s, a))
  {
    assert IncOk(a.i, s.incs[a.i]);
    LocalStep(s, a.i, ApplyChild(s, a).incs[a.i]);
  }

  lemma ReaderStep(s: State, a: Action)
    requires Enabled(s, a) && Inv(s) && ReaderAction(a)
    ensures Inv(ApplyReader(s, a))
  {
    FindsItself(s, a.i);
    ReaderEffect(s, a);
    LocalStep(s, a.i, ApplyReader(s, a).incs[a.i]);
  }

  lemma ReaderEffect(s: State, a: Action)
    requires Enabled(s, a) && ReaderAction(a) && IncOk(a.i, s.incs[a.i]) && Entry(s.procs, s.incs, a.i)
    ensures IsLocal(s, ApplyReader(s, a), a.i)
  {
    if a.ReadLine? { ReadEffect(s, a.i, a.line); } else { ReaderEndsEffect(s, a); }
  }

  lemma ReadEffect(s: State, i: nat, line: Line)
    requires Enabled(s, ReadLine(i, line)) && IncOk(i, s.incs[i]) && Entry(s.procs, s.incs, i)
    ensures IsLocal(s, ApplyReader(s, ReadLine(i, line)), i)
  {
  }

  lemma ReaderEndsEffect(s: State, a: Action)
    requires Enabled(s, a) && (a.ReaderLookup? || a.ReadEnd?) && IncOk(a.i, s.incs[a.i]) && Entry(s.procs, s.incs, a.i)
    ensures IsLocal(s, ApplyReader(s, a), a.i)
  {
  }

  predicate EarlyMonitorAction(a: Action) {
    a.MonitorLookup? || a.MonitorWait? || a.MonitorDrain? || a.MonitorLoadStop? || a.MonitorLoadExit?
  }

  lemma EarlyMonitorStep(s: State, a: Action)
    requires Enabled(s, a) && Inv(s) && EarlyMonitorAction(a)
    ensures Inv(ApplyMonitor(s, a))
  {
    if a.MonitorLookup? {
      FindsItself(s, a.i);
      LookupEffect(s, a.i);
    } else {
      EarlyMonitorEffect(s, a);
    }
    LocalStep(s, a.i, ApplyMonitor(s, a).incs[a.i]);
  }

  lemma LookupEffect(s: State, i: nat)
    requires Enabled(s, MonitorLookup(i)) && IncOk(i, s.incs[i]) && Entry(s.procs, s.incs, i)
    ensures IsLocal(s, ApplyMonitor(s, MonitorLookup(i)), i)
  {
  }

  lemma EarlyMonitorEffect(s: State, a: Action)
    requires EarlyMonitorAction(a) && !a.MonitorLookup? && Enabled(s, a) && IncOk(a.i, s.incs[a.i])
    ensures IsLocal(s, ApplyMonitor(s, a), a.i)
  {
    if a.MonitorWait? || a.MonitorDrain? { WaitEffect(s, a); } else { LoadEffect(s, a); }
  }

  lemma WaitEffect(s: State, a: Action)
    requires (a.MonitorWait? || a.MonitorDrain?) && Enabled(s, a) && IncOk(a.i, s.incs[a.i])
    ensures IsLocal(s, ApplyMonitor(s, a), a.i)
  {
  }

  lemma LoadEffect(s: State, a: Action)
    requires (a.MonitorLoadStop? || a.MonitorLoadExit?) && Enabled(s, a) && IncOk(a.i, s.incs[a.i])
    ensures IsLocal(s, ApplyMonitor(s, a), a.i)
  {
  }

  /** Deleting the entry and moving on. */
  lemma DeleteStep(s: State, i: nat)
    requires Enabled(s, MonitorDelete(i)) && Inv(s)
    ensures Inv(ApplyMonitor(s, MonitorDelete(i)))
  {
    FindsItself(s, i);
    var inc := s.incs[i];
    assert IncOk(i, inc);
    var inc' := inc.(monitor := MDeleted(inc.monitor.target, inc.monitor.status));
    LocalIncs(s.incs, i, inc');
    DeleteRegistry(s.procs, s.configs, s.incs, i, inc');
    LocalOwners(s.starts, s.incs, i, inc');
    LocalEvents(s.events, s.starts, s.incs, i, inc');
    StopsFollow(s.stops, s.incs, s.incs[i := inc']);
    RestartsFollow(s, s.starts, s.stops, s.events, s.incs[i := inc']);
  }

  lemma DeleteRegistry(procs: map<string, nat>, configs: map<string, Command>, incs: seq<Inc>, i: nat, inc': Inc)
    requires RegistryOk(procs, configs, incs) && i < |incs| && Active(incs[i]) && !Active(inc')
             && inc'.cmd == incs[i].cmd
    ensures RegistryOk(procs - {incs[i].cmd.botId}, configs, incs[i := inc'])
  {
    assert Entry(procs, incs, i);
    var incs' := incs[i := inc'];
    forall j | 0 <= j < |incs'| && Active(incs'[j])
      ensures Entry(procs - {incs[i].cmd.botId}, incs', j)
    {
      assert Entry(procs, incs, j);
    }
  }

  lemma HasTerminalKept(events: seq<Event>, events': seq<Event>)
    requires events <= events'
    ensures forall j :: HasTerminal(events, j) ==> HasTerminal(events', j)
  {
    forall j | HasTerminal(events, j)
      ensures HasTerminal(events', j)
    {
      var p :| 0 <= p < |events| && IsTerminal(events[p], j);
      assert IsTerminal(events'[p], j);
    }
  }

  lemma EmitStep(s: State, i: nat)
    requires Enabled(s, MonitorEmit(i)) && Inv(s)
    ensures Inv(ApplyMonitor(s, MonitorEmit(i)))
  {
    var inc := s.incs[i];
    assert IncOk(i, inc);
    var inc' := inc.(monitor := MEmitted(inc.monitor.target));
    var events' := s.events + [Terminal(i, inc.monitor.status)];
    LocalIncs(s.incs, i, inc');
    LocalRegistry(s.procs, s.configs, s.incs, i, inc');
    EmitOwners(s.starts, s.incs, i, inc');
    EmitEvents(s.events, s.starts, s.incs, i, inc', inc.monitor.status);
    StopsFollow(s.stops, s.incs, s.incs[i := inc']);
    RestartsFollow(s, s.starts, s.stops, events', s.incs[i := inc']);
  }

  lemma EmitOwners(starts: seq<StartCall>, incs: seq<Inc>, i: nat, inc': Inc)
    requires OwnersOk(starts, incs) && i < |incs|
    requires inc' == incs[i].(monitor := inc'.monitor) && inc'.monitor != MNone && incs[i].monitor != MNone
    ensures OwnersOk(starts, incs[i := inc'])
  {
    forall c | 0 <= c < |starts|
      ensures CallOk(c, starts[c], incs[i := inc'])
    {
      assert CallOk(c, starts[c], incs);
    }
  }

  lemma EmitEvents(events: seq<Event>, starts: seq<StartCall>, incs: seq<Inc>, i: nat, inc': Inc, status: Status)
    requires EventsOk(events, starts, incs) && i < |incs|
    requires !Emitted(incs[i].monitor) && Emitted(inc'.monitor) && inc'.owner == incs[i].owner
    requires inc'.loadedStop.Some? && status == OwnVerdict(inc')
    ensures EventsOk(events + [Terminal(i, status)], starts, incs[i := inc'])
  {
    var events' := events + [Terminal(i, status)];
    forall p | 0 <= p < |events|
      ensures EventOk(events'[p], starts, incs[i := inc']) && !IsTerminal(events'[p], i)
    {
      assert EventOk(events[p], starts, incs);
    }
    HasTerminalKept(events, events');
    assert IsTerminal(events'[|events|], i);
  }

  lemma FinishStep(s: State, i: nat)
    requires Enabled(s, MonitorFinish(i)) && Inv(s)
    ensures Inv(ApplyMonitor(s, MonitorFinish(i)))
  {
    assert IncOk(i, s.incs[i]);
    FinishEffect(s, i);
    LocalStep(s, i, ApplyMonitor(s, MonitorFinish(i)).incs[i]);
  }

  lemma FinishEffect(s: State, i: nat)
    requires Enabled(s, MonitorFinish(i)) && IncOk(i, s.incs[i])
    ensures IsLocal(s, ApplyMonitor(s, MonitorFinish(i)), i)
  {
  }

  lemma MonitorStep(s: State, a: Action)
    requires Enabled(s, a) && Inv(s) && MonitorAction(a)
    ensures Inv(ApplyMonitor(s, a))
  {
    if a.MonitorDelete? {
      DeleteStep(s, a.i);
    } else if a.MonitorEmit? {
      EmitStep(s, a.i);
    } else if a.MonitorFinish? {
      FinishStep(s, a.i);
    } else {
      EarlyMonitorStep(s, a);
    }
  }

  // ---------------------------------------------------------------------------------------------
  // StartBot, StopBot and RestartBot
  // ---------------------------------------------------------------------------------------------

  /** A new StartBot call, refused or past its first check. */
  lemma BeginStartStep(s: State, cmd: Command, valid: bool)
    requires Inv(s)
    ensures Inv(BeginStart(s, cmd, valid))
  {
    var starts' := BeginStart(s, cmd, valid).starts;
    NewCallOwners(s.starts, starts', s.incs);
    NewCallEvents(s.events, s.starts, starts', s.incs);
    RestartsFollow(s, starts', s.stops, s.events, s.incs);
  }

  lemma NewCallOwners(starts: seq<StartCall>, starts': seq<StartCall>, incs: seq<Inc>)
    requires OwnersOk(starts, incs) && |starts'| == |starts| + 1 && starts <= starts'
             && Child(starts'[|starts|].at) == None
    ensures OwnersOk(starts', incs)
  {
  }

  lemma NewCallEvents(events: seq<Event>, starts: seq<StartCall>, starts': seq<StartCall>, incs: seq<Inc>)
    requires EventsOk(events, starts, incs) && starts <= starts'
    ensures EventsOk(events, starts', incs)
  {
    forall p | 0 <= p < |events|
      ensures EventOk(events[p], starts', incs)
    {
      assert EventOk(events[p], starts, incs);
    }
  }

  /** One more event that is not a terminal status. */
  lemma LogStep(s: State, e: Event)
    requires Inv(s) && !e.Terminal? && EventOk(e, s.starts, s.incs)
    ensures Inv(Log(s, e))
  {
    HasTerminalKept(s.events, s.events + [e]);
    RestartsFollow(s, s.starts, s.stops, s.events + [e], s.incs);
  }

  lemma SameInc(s: State, i: nat)
    requires i < |s.incs|
    ensures WithInc(s, i, s.incs[i]) == s
  {
    assert s.incs[i := s.incs[i]] == s.incs;
  }

  /** A call and its child, if it has one, move together. */
  lemma OwnStep(s: State, c: nat, at: StartAt, i: nat, inc': Inc)
    requires Inv(s) && c < |s.starts| && i < |s.incs|
    requires !s.starts[c].at.Succeeded? && Child(at) == Child(s.starts[c].at)
    requires if Child(at).Some? then Child(at).value == i && StageOk(at, inc') else inc' == s.incs[i]
    requires inc'.cmd == s.incs[i].cmd && inc'.owner == s.incs[i].owner && inc'.registered == s.incs[i].registered
    requires inc' == s.incs[i] || (!Past(s.incs[i].monitor) && !Past(inc'.monitor))
    requires IncOk(i, inc') && (s.incs[i].killed ==> inc'.killed) && inc'.stopRequested == s.incs[i].stopRequested
    ensures Inv(WithInc(WithStart(s, c, at), i, inc'))
  {
    var starts' := s.starts[c := s.starts[c].(at := at)];
    LocalIncs(s.incs, i, inc');
    LocalRegistry(s.procs, s.configs, s.incs, i, inc');
    OwnOwners(s.starts, s.incs, c, at, i, inc');
    OwnEvents(s.events, s.starts, s.incs, c, at, i, inc');
    StopsFollow(s.stops, s.incs, s.incs[i := inc']);
    RestartsFollow(s, starts', s.stops, s.events, s.incs[i := inc']);
  }

  lemma OwnOwners(starts: seq<StartCall>, incs: seq<Inc>, c: nat, at: StartAt, i: nat, inc': Inc)
    requires OwnersOk(starts, incs) && c < |starts| && i < |incs| && Child(at) == Child(starts[c].at)
    requires if Child(at).Some? then Child(at).value == i && StageOk(at, inc') else inc' == incs[i]
    requires inc'.cmd == incs[i].cmd && inc'.owner == incs[i].owner
    ensures OwnersOk(starts[c := starts[c].(at := at)], incs[i := inc'])
  {
    var starts', incs' := starts[c := starts[c].(at := at)], incs[i := inc'];
    forall d | 0 <= d < |starts'|
      ensures CallOk(d, starts'[d], incs')
    {
      assert CallOk(d, starts[d], incs) && CallOk(c, starts[c], incs);
    }
  }

  lemma OwnEvents(events: seq<Event>, starts: seq<StartCall>, incs: seq<Inc>, c: nat, at: StartAt, i: nat, inc': Inc)
    requires EventsOk(events, starts, incs) && c < |starts| && i < |incs|
    requires !starts[c].at.Succeeded? && inc'.owner == incs[i].owner
    requires inc' == incs[i] || (!Past(incs[i].monitor) && !Past(inc'.monitor))
    ensures EventsOk(events, starts[c := starts[c].(at := at)], incs[i := inc'])
  {
    var starts', incs' := starts[c := starts[c].(at := at)], incs[i := inc'];
    forall p | 0 <= p < |events|
      ensures EventOk(events[p], starts', incs')
    {
      assert EventOk(events[p], starts, incs);
    }
  }

  /** A call that has no child and will have none. */
  lemma RefusedStep(s: State, c: nat)
    requires Inv(s) && c < |s.starts| && s.starts[c].at == Checked
    ensures Inv(WithStart(s, c, Refused))
  {
    var starts' := s.starts[c := s.starts[c].(at := Refused)];
    forall d | 0 <= d < |s.starts|
      ensures CallOk(d, starts'[d], s.incs)
    {
      assert CallOk(d, s.starts[d], s.incs);
    }
    forall p | 0 <= p < |s.events|
      ensures EventOk(s.events[p], starts', s.incs)
    {
      assert EventOk(s.events[p], s.starts, s.incs);
    }
    RestartsFollow(s, starts', s.stops, s.events, s.incs);
  }

  lemma SpawnStep(s: State, c: nat)
    requires Inv(s) && Enabled(s, Spawn(c))
    ensures Inv(ApplyStart(s, Spawn(c)))
  {
    var inc := NewInc(s.starts[c].cmd, c);
    var starts' := s.starts[c := s.starts[c].(at := Holding(|s.incs|))];
    assert IncOk(|s.incs|, inc);
    SpawnRegistry(s.procs, s.configs, s.incs, inc);
    SpawnOwners(s.starts, s.incs, c, inc);
    SpawnEvents(s.events, s.starts, s.incs, c, inc);
    StopsFollow(s.stops, s.incs, s.incs + [inc]);
    RestartsFollow(s, starts', s.stops, s.events, s.incs + [inc]);
  }

  lemma SpawnRegistry(procs: map<string, nat>, configs: map<string, Command>, incs: seq<Inc>, inc: Inc)
    requires RegistryOk(procs, configs, incs) && !Active(inc)
    ensures RegistryOk(procs, configs, incs + [inc])
  {
    var incs' := incs + [inc];
    forall j | 0 <= j < |incs'| && Active(incs'[j])
      ensures Entry(procs, incs', j)
    {
      assert Entry(procs, incs, j);
    }
  }

  lemma SpawnOwners(starts: seq<StartCall>, incs: seq<Inc>, c: nat, inc: Inc)
    requires OwnersOk(starts, incs) && c < |starts| && starts[c].at == Checked
    requires inc.owner == c && inc.cmd == starts[c].cmd && !inc.registered && !inc.reaped
    ensures OwnersOk(starts[c := starts[c].(at := Holding(|incs|))], incs + [inc])
  {
    var starts', incs' := starts[c := starts[c].(at := Holding(|incs|))], incs + [inc];
    forall d | 0 <= d < |starts'|
      ensures CallOk(d, starts'[d], incs')
    {
      assert CallOk(d, starts[d], incs);
    }
    forall i | 0 <= i < |incs'|
      ensures incs'[i].owner < |starts'| && Child(starts'[incs'[i].owner].at) == Some(i)
    {
      if i < |incs| {
        assert incs'[i] == incs[i] && incs[i].owner != c;
      }
    }
  }

  lemma SpawnEvents(events: seq<Event>, starts: seq<StartCall>, incs: seq<Inc>, c: nat, inc: Inc)
    requires EventsOk(events, starts, incs) && c < |starts| && starts[c].at == Checked && !Emitted(inc.monitor)
    ensures EventsOk(events, starts[c := starts[c].(at := Holding(|incs|))], incs + [inc])
  {
    var starts', incs' := starts[c := starts[c].(at := Holding(|incs|))], incs + [inc];
    forall p | 0 <= p < |events|
      ensures EventOk(events[p], starts', incs')
    {
      assert EventOk(events[p], starts, incs);
    }
  }

  /** Winning the second check: the entry and the configuration appear together. */
  lemma RegisterStep(s: State, c: nat)
    requires Inv(s) && Enabled(s, SecondCheck(c)) && s.starts[c].cmd.botId !in s.procs
    ensures Inv(ApplyStart(s, SecondCheck(c)))
  {
    var i := s.starts[c].at.i;
    var inc' := s.incs[i].(registered := true);
    var starts' := s.starts[c := s.starts[c].(at := Registered(i))];
    assert CallOk(c, s.starts[c], s.incs) && IncOk(i, s.incs[i]);
    LocalIncs(s.incs, i, inc');
    RegisterRegistry(s.procs, s.configs, s.incs, i, inc');
    OwnOwners(s.starts, s.incs, c, Registered(i), i, inc');
    OwnEvents(s.events, s.starts, s.incs, c, Registered(i), i, inc');
    StopsFollow(s.stops, s.incs, s.incs[i := inc']);
    RestartsFollow(s, starts', s.stops, s.events, s.incs[i := inc']);
  }

  lemma RegisterRegistry(procs: map<string, nat>, configs: map<string, Command>, incs: seq<Inc>, i: nat, inc': Inc)
    requires RegistryOk(procs, configs, incs) && i < |incs| && inc'.cmd.botId !in procs
    requires !Active(incs[i]) && Active(inc') && inc'.cmd == incs[i].cmd
    ensures RegistryOk(procs[inc'.cmd.botId := i], configs[inc'.cmd.botId := inc'.cmd], incs[i := inc'])
  {
    var incs' := incs[i := inc'];
    forall j | 0 <= j < |incs'| && Active(incs'[j])
      ensures Entry(procs[inc'.cmd.botId := i], incs', j)
    {
      assert j != i ==> Entry(procs, incs, j);
    }
  }

  lemma LostCheckStep(s: State, c: nat)
    requires Inv(s) && Enabled(s, SecondCheck(c)) && s.starts[c].cmd.botId in s.procs
    ensures Inv(ApplyStart(s, SecondCheck(c)))
  {
    var i := s.starts[c].at.i;
    assert CallOk(c, s.starts[c], s.incs) && IncOk(i, s.incs[i]);
    OwnStep(s, c, Losing(i), i, s.incs[i]);
    SameInc(WithStart(s, c, Losing(i)), i);
  }

  lemma KillStep(s: State, c: nat)
    requires Inv(s) && Enabled(s, KillLoser(c))
    ensures Inv(ApplyStart(s, KillLoser(c)))
  {
    var i := s.starts[c].at.i;
    assert CallOk(c, s.starts[c], s.incs) && IncOk(i, s.incs[i]);
    OwnStep(s, c, Reaping(i), i, s.incs[i].(killed := true));
  }

  lemma ReapStep(s: State, c: nat)
    requires Inv(s) && Enabled(s, ReapLoser(c))
    ensures Inv(ApplyStart(s, ReapLoser(c)))
  {
    var i := s.starts[c].at.i;
    assert CallOk(c, s.starts[c], s.incs) && IncOk(i, s.incs[i]);
    var inc' := s.incs[i].(reaped := true);
    OwnStep(s, c, Lost(i), i, inc');
    LogStep(WithInc(WithStart(s, c, Lost(i)), i, inc'), StartError(c));
  }

  lemma SpawnReaderStep(s: State, c: nat)
    requires Inv(s) && Enabled(s, SpawnReader(c))
    ensures Inv(ApplyStart(s, SpawnReader(c)))
  {
    var i := s.starts[c].at.i;
    assert CallOk(c, s.starts[c], s.incs) && IncOk(i, s.incs[i]);
    OwnStep(s, c, ReaderUp(i), i, s.incs[i].(reader := RSpawned));
  }

  lemma SpawnMonitorStep(s: State, c: nat)
    requires Inv(s) && Enabled(s, SpawnMonitor(c))
    ensures Inv(ApplyStart(s, SpawnMonitor(c)))
  {
    var i := s.starts[c].at.i;
    assert CallOk(c, s.starts[c], s.incs) && IncOk(i, s.incs[i]);
    OwnStep(s, c, MonitorUp(i), i, s.incs[i].(monitor := MSpawned));
  }

  lemma RunningStep(s: State, c: nat)
    requires Inv(s) && Enabled(s, EmitRunning(c))
    ensures Inv(ApplyStart(s, EmitRunning(c)))
  {
    var i := s.starts[c].at.i;
    assert CallOk(c, s.starts[c], s.incs) && IncOk(i, s.incs[i]);
    OwnStep(s, c, Succeeded(i), i, s.incs[i]);
    SameInc(WithStart(s, c, Succeeded(i)), i);
    LogStep(WithStart(s, c, Succeeded(i)), Running(i));
  }

  lemma StartStep(s: State, a: Action)
    requires Enabled(s, a) && Inv(s) && StartAction(a)
    ensures Inv(ApplyStart(s, a))
  {
    match a
    case StartBegin(cmd, valid) => BeginStartStep(s, cmd, valid);
    case StartFail(c) =>
      RefusedStep(s, c);
      LogStep(WithStart(s, c, Refused), StartError(c));
    case Spawn(c) => SpawnStep(s, c);
    case SecondCheck(c) => if s.starts[c].cmd.botId in s.procs { LostCheckStep(s, c); } else { RegisterStep(s, c); }
    case KillLoser(c) => KillStep(s, c);
    case ReapLoser(c) => ReapStep(s, c);
    case SpawnReader(c) => SpawnReaderStep(s, c);
    case SpawnMonitor(c) => SpawnMonitorStep(s, c);
    case EmitRunning(c) => RunningStep(s, c);
  }

  /** Changes to StopBot calls alone. */
  lemma StopCallStep(s: State, stops': seq<StopCall>)
    requires Inv(s) && |s.stops| <= |stops'|
    requires forall k :: 0 <= k < |s.stops| ==> stops'[k].botId == s.stops[k].botId
    requires StopsOk(stops', s.incs)
    ensures Inv(s.(stops := stops'))
  {
    RestartsFollow(s, s.starts, stops', s.events, s.incs);
  }

  lemma BeginStopStep(s: State, botId: string)
    requires Inv(s)
    ensures Inv(BeginStop(s, botId))
  {
    StopCallStep(s, BeginStop(s, botId).stops);
  }

  /** One StopBot call moves on, perhaps setting a flag of its incarnation. */
  lemma StopMarkStep(s: State, k: nat, at: StopAt, i: nat, inc': Inc)
    requires Inv(s) && k < |s.stops| && i < |s.incs|
    requires inc' == s.incs[i].(stopRequested := inc'.stopRequested, killed := inc'.killed)
    requires (s.incs[i].killed ==> inc'.killed) && (s.incs[i].stopRequested ==> inc'.stopRequested)
    requires StopOk(s.stops[k].(at := at), s.incs[i := inc'])
    ensures Inv(WithInc(WithStop(s, k, at), i, inc'))
  {
    assert IncOk(i, s.incs[i]);
    LocalStep(s, i, inc');
    var s' := WithInc(s, i, inc');
    var stops' := s.stops[k := s.stops[k].(at := at)];
    assert StopsOk(s'.stops, s'.incs);
    StopCallStep(s', stops');
    assert WithInc(WithStop(s, k, at), i, inc') == s'.(stops := stops');
  }

  lemma StopStep(s: State, a: Action)
    requires Enabled(s, a) && Inv(s) && StopAction(a)
    ensures Inv(ApplyStop(s, a))
  {
    match a
    case StopBegin(botId) => BeginStopStep(s, botId);
    case StopFlag(k) => FlagStep(s, k);
    case StopTimeout(k, killOk) => TimeoutStep(s, k, killOk);
    case StopReturn(k) => StopReturnStep(s, k);
  }

  lemma FlagStep(s: State, k: nat)
    requires Inv(s) && Enabled(s, StopFlag(k))
    ensures Inv(ApplyStop(s, StopFlag(k)))
  {
    var i := s.stops[k].at.i;
    assert StopOk(s.stops[k], s.incs);
    StopMarkStep(s, k, Waiting(i), i, s.incs[i].(stopRequested := true));
  }

  lemma TimeoutStep(s: State, k: nat, killOk: bool)
    requires Inv(s) && Enabled(s, StopTimeout(k, killOk))
    ensures Inv(ApplyStop(s, StopTimeout(k, killOk)))
  {
    var i := s.stops[k].at.i;
    assert StopOk(s.stops[k], s.incs);
    if killOk {
      StopMarkStep(s, k, KillSent(i), i, s.incs[i].(killed := true));
    } else {
      StopMarkStep(s, k, StopFailed(KillFailed), i, s.incs[i]);
      SameInc(WithStop(s, k, StopFailed(KillFailed)), i);
    }
  }

  lemma StopReturnStep(s: State, k: nat)
    requires Inv(s) && Enabled(s, StopReturn(k))
    ensures Inv(ApplyStop(s, StopReturn(k)))
  {
    var i := s.stops[k].at.i;
    assert StopOk(s.stops[k], s.incs) && IncOk(i, s.incs[i]);
    StopMarkStep(s, k, StoppedNil(i), i, s.incs[i]);
    SameInc(WithStop(s, k, StoppedNil(i)), i);
  }

  /** Changes to one RestartBot call. */
  lemma RestartCallStep(s: State, r: nat, call: RestartCall)
    requires Inv(s) && r <= |s.restarts| && RestartOk(call, s.starts, s.stops, s.events, s.incs)
    ensures r < |s.restarts| ==> Inv(s.(restarts := s.restarts[r := call]))
    ensures r == |s.restarts| ==> Inv(s.(restarts := s.restarts + [call]))
  {
  }

  lemma RestartBeginStep(s: State, botId: string)
    requires Inv(s)
    ensures Inv(ApplyRestart(s, RestartBegin(botId)))
  {
    RestartCallStep(s, |s.restarts|, ApplyRestart(s, RestartBegin(botId)).restarts[|s.restarts|]);
  }

  lemma RestartLookStep(s: State, r: nat)
    requires Inv(s) && Enabled(s, RestartLook(r))
    ensures Inv(ApplyRestart(s, RestartLook(r)))
  {
    assert RestartOk(s.restarts[r], s.starts, s.stops, s.events, s.incs);
    RestartCallStep(s, r, ApplyRestart(s, RestartLook(r)).restarts[r]);
  }

  lemma RestartStopStep(s: State, r: nat)
    requires Inv(s) && Enabled(s, RestartStop(r))
    ensures Inv(ApplyRestart(s, RestartStop(r)))
  {
    var t := BeginStop(s, s.restarts[r].botId);
    assert RestartOk(s.restarts[r], s.starts, s.stops, s.events, s.incs);
    BeginStopStep(s, s.restarts[r].botId);
    RestartCallStep(t, r, s.restarts[r].(at := Stopping(|s.stops|)));
  }

  lemma RestartStoppedStep(s: State, r: nat)
    requires Inv(s) && Enabled(s, RestartStopped(r))
    ensures Inv(ApplyRestart(s, RestartStopped(r)))
  {
    assert RestartOk(s.restarts[r], s.starts, s.stops, s.events, s.incs)
           && StopOk(s.stops[s.restarts[r].at.stop], s.incs);
    RestartCallStep(s, r, ApplyRestart(s, RestartStopped(r)).restarts[r]);
  }

  /** The call RestartBot makes is new, so no "running" of it can be in the trace yet. */
  lemma RestartStartStep(s: State, r: nat, valid: bool)
    requires Inv(s) && Enabled(s, RestartStart(r, valid))
    ensures Inv(ApplyRestart(s, RestartStart(r, valid)))
  {
    var call := s.restarts[r];
    var c := |s.starts|;
    var t := BeginStart(s, call.config.value, valid);
    assert RestartOk(call, s.starts, s.stops, s.events, s.incs);
    BeginStartStep(s, call.config.value, valid);
    if call.at.stopped.Some? {
      FreshCallComesLater(s.events, s.starts, s.incs, call.at.stopped.value);
    }
    RestartCallStep(t, r, call.(at := Starting(c, call.at.stopped)));
  }

  lemma FreshCallComesLater(events: seq<Event>, starts: seq<StartCall>, incs: seq<Inc>, i: nat)
    requires EventsOk(events, starts, incs) && OwnersOk(starts, incs) && i < |incs| && incs[i].monitor == MFinished
    ensures TerminalBeforeRunning(events, incs, i, |starts|) && incs[i].owner != |starts|
  {
    assert HasTerminal(events, i);
    var p :| 0 <= p < |events| && IsTerminal(events[p], i);
    assert NoRunningBefore(events, incs, p, |starts|);
  }

  lemma RestartStep(s: State, a: Action)
    requires Enabled(s, a) && Inv(s)
    requires a.RestartBegin? || a.RestartLook? || a.RestartStop? || a.RestartStopped? || a.RestartStart?
    ensures Inv(ApplyRestart(s, a))
  {
    match a
    case RestartBegin(botId) => RestartBeginStep(s, botId);
    case RestartLook(r) => RestartLookStep(s, r);
    case RestartStop(r) => RestartStopStep(s, r);
    case RestartStopped(r) => RestartStoppedStep(s, r);
    case RestartStart(r, valid) => RestartStartStep(s, r, valid);
  }

  lemma StepKeeps(s: State, a: Action)
    requires Enabled(s, a) && Inv(s)
    ensures Inv(Apply(s, a))
  {
    if StartAction(a) { StartStep(s, a); }
    else if ChildAction(a) { ChildStep(s, a); }
    else if ReaderAction(a) { ReaderStep(s, a); }
    else if MonitorAction(a) { MonitorStep(s, a); }
    else if StopAction(a) { StopStep(s, a); }
    else { RestartStep(s, a); }
  }

  lemma {:induction false} RunKeeps(s: State, acts: seq<Action>, t: State)
    requires Inv(s) && Run(s, acts, t)
    ensures Inv(t)
    decreases |acts|
  {
    if acts != [] {
      StepKeeps(s, acts[0]);
      RunKeeps(Apply(s, acts[0]), acts[1..], t);
    }
  }

  lemma ReachableInv(t: State)
    requires Reachable(t)
    ensures Inv(t)
  {
    var acts :| Run(INITIAL, acts, t);
    RunKeeps(INITIAL, acts, t);
  }
}
