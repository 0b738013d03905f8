/** What an incarnation's terminal status says about the run that led to it: which exit codes were read, how
    the child ended, and whether somebody asked it to stop. */
module LifecycleHistory {
  import opened Prelude
  import opened Lifecycle
  import opened LifecycleInv
  import LifecycleRuns

  // ---------------------------------------------------------------------------------------------
  // Exit codes and the child's own end
  // ---------------------------------------------------------------------------------------------

  /** The codes of the exit lines that incarnation i's reader handled, in order. */
  function CodesRead(acts: seq<Action>, i: nat): seq<int> {
    if acts == [] then []
    else
      var a := acts[0];
      (if a.ReadLine? && a.i == i && a.line.Exit? then [a.line.code] else []) + CodesRead(acts[1..], i)
  }

  function Codes(s: State, i: nat): seq<int> {
    if i < |s.incs| then s.incs[i].exitCodes else []
  }

  predicate Failed(s: State, i: nat) {
    i < |s.incs| && s.incs[i].failed
  }

  predicate StopAsked(s: State, i: nat) {
    i < |s.incs| && s.incs[i].stopRequested
  }

  /** What one step tells about incarnation i. */
  ghost predicate Told(s: State, a: Action, s': State, i: nat) {
    && Codes(s', i) == Codes(s, i) + CodesRead([a], i)
    && (Failed(s', i) <==> Failed(s, i) || a == ChildExits(i, true))
    && (StopAsked(s', i) <==> StopAsked(s, i) || AsksStop(s, a, i))
    && |s.incs| <= |s'.incs|
  }

  /** A StopBot call that has captured incarnation i sets its flag. */
  predicate AsksStop(s: State, a: Action, i: nat) {
    a.StopFlag? && a.k < |s.stops| && s.stops[a.k].at == Captured(i)
  }

  lemma StepTells(s: State, a: Action, i: nat)
    requires Inv(s) && Enabled(s, a)
    ensures Told(s, a, Apply(s, a), i)
  {
    assert CodesRead([a], i) == (if a.ReadLine? && a.i == i && a.line.Exit? then [a.line.code] else []);
    if StartAction(a) { StartTells(s, a, i); }
    else if ReaderAction(a) { ReaderTells(s, a, i); }
    else if ChildAction(a) { ChildTells(s, a, i); }
    else if MonitorAction(a) { MonitorTells(s, a, i); }
    else { CallTells(s, a, i); }
  }

  /** Neither codes nor flags of any incarnation change. */
  ghost predicate Silent(s: State, s': State) {
    && |s.incs| <= |s'.incs|
    && (forall i :: 0 <= i < |s.incs| ==>
          && s'.incs[i].exitCodes == s.incs[i].exitCodes && s'.incs[i].failed == s.incs[i].failed
          && s'.incs[i].stopRequested == s.incs[i].stopRequested)
    && (forall i :: |s.incs| <= i < |s'.incs| ==>
          s'.incs[i].exitCodes == [] && !s'.incs[i].failed && !s'.incs[i].stopRequested)
  }

  lemma StartTells(s: State, a: Action, i: nat)
    requires Enabled(s, a) && StartAction(a)
    ensures Told(s, a, Apply(s, a), i)
  {
    StartIsSilent(s, a);
  }

  lemma StartIsSilent(s: State, a: Action)
    requires Enabled(s, a) && StartAction(a)
    ensures Silent(s, ApplyStart(s, a))
  {
  }

  lemma MonitorTells(s: State, a: Action, i: nat)
    requires Enabled(s, a) && MonitorAction(a)
    ensures Told(s, a, Apply(s, a), i)
  {
    MonitorIsSilent(s, a);
  }

  lemma MonitorIsSilent(s: State, a: Action)
    requires Enabled(s, a) && MonitorAction(a)
    ensures Silent(s, ApplyMonitor(s, a))
  {
    if !EarlyMonitorAction(a) {
      LateMonitorIsSilent(s, a);
    }
  }

  lemma LateMonitorIsSilent(s: State, a: Action)
    requires Enabled(s, a) && (a.MonitorDelete? || a.MonitorEmit? || a.MonitorFinish?)
    ensures Silent(s, ApplyMonitor(s, a))
  {
    if a.MonitorFinish? {
      FinishIsSilent(s, a.i);
    }
  }

  lemma FinishIsSilent(s: State, i: nat)
    requires Enabled(s, MonitorFinish(i))
    ensures Silent(s, ApplyMonitor(s, MonitorFinish(i)))
  {
  }

  lemma ReaderTells(s: State, a: Action, i: nat)
    requires Enabled(s, a) && ReaderAction(a)
    ensures Told(s, a, Apply(s, a), i)
  {
    assert Apply(s, a) == ApplyReader(s, a);
    assert CodesRead([a], i) == (if a.ReadLine? && a.i == i && a.line.Exit? then [a.line.code] else []);
  }

  lemma ChildTells(s: State, a: Action, i: nat)
    requires Inv(s) && Enabled(s, a) && ChildAction(a)
    ensures Told(s, a, Apply(s, a), i)
  {
    assert Apply(s, a) == ApplyChild(s, a);
    assert IncOk(a.i, s.incs[a.i]);
  }

  lemma CallTells(s: State, a: Action, i: nat)
    requires Enabled(s, a) && !StartAction(a) && !ReaderAction(a) && !ChildAction(a) && !MonitorAction(a)
    ensures Told(s, a, Apply(s, a), i)
  {
    if StopAction(a) {
      assert Apply(s, a) == ApplyStop(s, a);
    } else {
      assert Apply(s, a).incs == s.incs;
    }
  }

  /** What a run tells about incarnation i. */
  ghost predicate RunTold(s: State, acts: seq<Action>, t: State, i: nat) {
    && Codes(t, i) == Codes(s, i) + CodesRead(acts, i)
    && (Failed(t, i) <==> Failed(s, i) || ChildExits(i, true) in acts)
  }

  /** The codes an incarnation knows are those its own reader read in this run, and its child counts as failed
      exactly if it exited so. */
  lemma {:induction false} RunTells(s: State, acts: seq<Action>, t: State, i: nat)
    requires Inv(s) && Run(s, acts, t)
    ensures RunTold(s, acts, t, i)
    decreases |acts|
  {
    if acts != [] {
      var u := Apply(s, acts[0]);
      StepKeeps(s, acts[0]);
      StepTells(s, acts[0], i);
      RunTells(u, acts[1..], t, i);
      ToldJoin(s, u, acts, t, i);
    }
  }

  lemma ToldJoin(s: State, u: State, acts: seq<Action>, t: State, i: nat)
    requires acts != [] && Told(s, acts[0], u, i) && RunTold(u, acts[1..], t, i)
    ensures RunTold(s, acts, t, i)
  {
    HistorySplits(acts, i);
  }

  lemma HistorySplits(acts: seq<Action>, i: nat)
    requires acts != []
    ensures CodesRead(acts, i) == CodesRead([acts[0]], i) + CodesRead(acts[1..], i)
    ensures ChildExits(i, true) in acts <==> acts[0] == ChildExits(i, true) || ChildExits(i, true) in acts[1..]
  {
    assert [acts[0]][1..] == [];
    assert acts == [acts[0]] + acts[1..];
  }

  ghost predicate NothingTold(s: State, t: State, i: nat) {
    Codes(t, i) == Codes(s, i) && Failed(t, i) == Failed(s, i) && StopAsked(t, i) == StopAsked(s, i)
  }

  lemma PlainStepTells(s: State, a: Action, i: nat)
    requires Inv(s) && Enabled(s, a) && LifecycleRuns.Plain(a)
    ensures NothingTold(s, Apply(s, a), i)
  {
    StepTells(s, a, i);
    assert CodesRead([a], i) == [];
  }

  /** A run without exit lines, ends and stops tells nothing. */
  lemma {:induction false} PlainRunTells(s: State, acts: seq<Action>, t: State, i: nat)
    requires Inv(s) && Run(s, acts, t) && forall a :: a in acts ==> LifecycleRuns.Plain(a)
    ensures NothingTold(s, t, i)
    decreases |acts|
  {
    if acts != [] {
      assert acts[0] in acts;
      var u := Apply(s, acts[0]);
      StepKeeps(s, acts[0]);
      PlainStepTells(s, acts[0], i);
      PlainRunTells(u, acts[1..], t, i);
      NothingToldJoin(s, u, t, i);
    }
  }

  lemma NothingToldJoin(s: State, u: State, t: State, i: nat)
    requires NothingTold(s, u, i) && NothingTold(u, t, i)
    ensures NothingTold(s, t, i)
  {
  }

  /** The terminal status in terms of the run alone: "stopped" if the monitor found the flag set; otherwise an
      error if the child exited with one, or if the last exit code its own reader read is nonzero as an
      int32, saying which; and "stopped" if neither. */
  lemma StatusFromHistory(acts: seq<Action>, t: State, p: nat)
    requires Run(INITIAL, acts, t) && p < |t.events| && t.events[p].Terminal?
    ensures t.events[p].i < |t.incs| && t.incs[t.events[p].i].loadedStop.Some?
    ensures var i, status, codes := t.events[p].i, t.events[p].status, CodesRead(acts, t.events[p].i);
            var code := if codes == [] then 0 else Int32(codes[|codes| - 1]);
            status == if t.incs[i].loadedStop.value then Stopped
                      else if ChildExits(i, true) in acts then WaitError
                      else if code != 0 then ExitCode(code)
                      else Stopped
  {
    RunFromStart(acts, t, t.events[p].i);
    StatusOfEvent(t, p);
    VerdictSpelledOut(t.incs[t.events[p].i]);
  }

  lemma RunFromStart(acts: seq<Action>, t: State, i: nat)
    requires Run(INITIAL, acts, t)
    ensures Inv(t)
    ensures i < |t.incs| ==>
              t.incs[i].exitCodes == CodesRead(acts, i) && (t.incs[i].failed <==> ChildExits(i, true) in acts)
  {
    RunKeeps(INITIAL, acts, t);
    RunTells(INITIAL, acts, t, i);
  }

  lemma VerdictSpelledOut(inc: Inc)
    requires inc.loadedStop.Some?
    ensures var code := if inc.exitCodes == [] then 0 else Int32(inc.exitCodes[|inc.exitCodes| - 1]);
            OwnVerdict(inc) == if inc.loadedStop.value then Stopped
                               else if inc.failed then WaitError
                               else if code != 0 then ExitCode(code)
                               else Stopped
  {
  }

  lemma StatusOfEvent(t: State, p: nat)
    requires Inv(t) && p < |t.events| && t.events[p].Terminal?
    ensures t.events[p].i < |t.incs| && t.incs[t.events[p].i].loadedStop.Some?
    ensures t.events[p].status == OwnVerdict(t.incs[t.events[p].i])
  {
    assert EventOk(t.events[p], t.starts, t.incs);
  }

  // ---------------------------------------------------------------------------------------------
  // Stopping
  // ---------------------------------------------------------------------------------------------

  /** The flag is set and the monitor has not found it unset. */
  predicate StopCounts(s: State, i: nat) {
    i < |s.incs| && s.incs[i].stopRequested && s.incs[i].loadedStop != Some(false)
  }

  lemma StopCountsStep(s: State, a: Action, i: nat)
    requires Inv(s) && Enabled(s, a) && StopCounts(s, i)
    ensures StopCounts(Apply(s, a), i)
  {
    StepTells(s, a, i);
    if MonitorAction(a) {
      assert IncOk(a.i, s.incs[a.i]);
      LoadsOwnFlag(s, a, i);
    } else {
      OnlyMonitorsLoad(s, a, i);
    }
  }

  lemma LoadsOwnFlag(s: State, a: Action, i: nat)
    requires Enabled(s, a) && MonitorAction(a) && i < |s.incs| && IncOk(a.i, s.incs[a.i])
    ensures var s' := Apply(s, a);
            && i < |s'.incs|
            && (s'.incs[i].loadedStop == s.incs[i].loadedStop || s'.incs[i].loadedStop == Some(s.incs[i].stopRequested))
  {
    assert Apply(s, a) == ApplyMonitor(s, a);
  }

  lemma OnlyMonitorsLoad(s: State, a: Action, i: nat)
    requires Enabled(s, a) && !MonitorAction(a) && i < |s.incs|
    ensures i < |Apply(s, a).incs| && Apply(s, a).incs[i].loadedStop == s.incs[i].loadedStop
  {
    if StartAction(a) {
      StartLoadsNothing(s, a, i);
    } else if ReaderAction(a) {
      ReaderLoadsNothing(s, a, i);
    } else if ChildAction(a) {
      assert Apply(s, a) == ApplyChild(s, a);
    } else if StopAction(a) {
      assert Apply(s, a) == ApplyStop(s, a);
    } else {
      assert Apply(s, a).incs == s.incs;
    }
  }

  lemma StartLoadsNothing(s: State, a: Action, i: nat)
    requires Enabled(s, a) && StartAction(a) && i < |s.incs|
    ensures i < |ApplyStart(s, a).incs| && ApplyStart(s, a).incs[i].loadedStop == s.incs[i].loadedStop
  {
  }

  lemma ReaderLoadsNothing(s: State, a: Action, i: nat)
    requires Enabled(s, a) && ReaderAction(a) && i < |s.incs|
    ensures i < |ApplyReader(s, a).incs| && ApplyReader(s, a).incs[i].loadedStop == s.incs[i].loadedStop
  {
  }

  lemma {:induction false} StopCountsRun(s: State, acts: seq<Action>, t: State, i: nat)
    requires Inv(s) && Run(s, acts, t) && StopCounts(s, i)
    ensures Inv(t) && StopCounts(t, i)
    decreases |acts|
  {
    if acts != [] {
      StepKeeps(s, acts[0]);
      StopCountsStep(s, acts[0], i);
      StopCountsRun(Apply(s, acts[0]), acts[1..], t, i);
    }
  }

  /** A stop is honoured: once a StopBot call waits for an incarnation whose monitor has not looked at the flag
      yet, its terminal status is "stopped" in every run, however the child ends. */
  lemma StopIsHonoured(s: State, k: nat, i: nat, acts: seq<Action>, t: State, p: nat)
    requires Reachable(s) && k < |s.stops| && (s.stops[k].at == Waiting(i) || s.stops[k].at == KillSent(i))
    requires i < |s.incs| && s.incs[i].loadedStop.None?
    requires Run(s, acts, t) && p < |t.events| && IsTerminal(t.events[p], i)
    ensures t.events[p].status == Stopped
  {
    ReachableInv(s);
    assert StopOk(s.stops[k], s.incs);
    StopCountsRun(s, acts, t, i);
    assert EventOk(t.events[p], t.starts, t.incs);
  }

  /** And only a stop makes the monitor find the flag set: some StopBot call of this run had captured this very
      incarnation and set it. */
  lemma FlagNeedsStopBot(acts: seq<Action>, t: State, i: nat) returns (p: nat, mid: State)
    requires Run(INITIAL, acts, t) && i < |t.incs| && t.incs[i].loadedStop == Some(true)
    ensures p < |acts| && Run(INITIAL, acts[..p], mid) && AsksStop(mid, acts[p], i)
  {
    RunKeeps(INITIAL, acts, t);
    assert IncOk(i, t.incs[i]);
    p, mid := FindsFlagStep(INITIAL, acts, t, i);
  }

  lemma {:induction false} FindsFlagStep(s: State, acts: seq<Action>, t: State, i: nat) returns (p: nat, mid: State)
    requires Inv(s) && Run(s, acts, t) && !StopAsked(s, i) && StopAsked(t, i)
    ensures p < |acts| && Run(s, acts[..p], mid) && AsksStop(mid, acts[p], i)
    decreases |acts|
  {
    var a := acts[0];
    if AsksStop(s, a, i) {
      p, mid := 0, s;
      assert Run(s, acts[..0], s);
    } else {
      var u := Apply(s, a);
      StepKeeps(s, a);
      StepTells(s, a, i);
      var q;
      q, mid := FindsFlagStep(u, acts[1..], t, i);
      p := q + 1;
      PrefixRun(s, acts, q, mid);
    }
  }

  lemma PrefixRun(s: State, acts: seq<Action>, q: nat, mid: State)
    requires acts != [] && q < |acts| && Enabled(s, acts[0]) && Run(Apply(s, acts[0]), acts[1..][..q], mid)
    ensures Run(s, acts[..q + 1], mid)
  {
    assert acts[..q + 1][1..] == acts[1..][..q];
  }

  /** So a bot that nobody stopped reports its crash. */
  lemma CrashIsReported(acts: seq<Action>, t: State, p: nat)
    requires Run(INITIAL, acts, t) && p < |t.events| && t.events[p].Terminal?
    requires ChildExits(t.events[p].i, true) in acts
    requires forall q, mid :: 0 <= q < |acts| && Run(INITIAL, acts[..q], mid) ==> !AsksStop(mid, acts[q], t.events[p].i)
    ensures t.events[p].status == WaitError
  {
    StatusFromHistory(acts, t, p);
    if t.incs[t.events[p].i].loadedStop == Some(true) {
      var q, mid := FlagNeedsStopBot(acts, t, t.events[p].i);
      assert false;
    }
  }

  // ---------------------------------------------------------------------------------------------
  // That it happens
  // ---------------------------------------------------------------------------------------------

  /** The verdict on an incarnation nobody asked to stop. */
  function UnstoppedStatus(failed: bool, codes: seq<int>): Status {
    var code := if codes == [] then 0 else Int32(codes[|codes| - 1]);
    if failed then WaitError else if code != 0 then ExitCode(code) else Stopped
  }

  /** Incarnation i ran for its bot, has been heard of to the end and its terminal status is in the trace. */
  ghost predicate Reported(t: State, i: nat, status: Status) {
    && i < |t.incs| && t.incs[i].done == 1
    && exists p :: 0 <= p < |t.events| && t.events[p] == Terminal(i, status)
  }

  /** Exits are reported: when the child of a running incarnation exits, with an error or without, the steps of
      its own goroutines can follow and send the status that its end and its exit lines ask for. */
  lemma ExitIsReported(s: State, i: nat, failed: bool) returns (acts: seq<Action>, t: State)
    requires Reachable(s) && i < |s.incs| && s.incs[i].registered && !s.incs[i].exited && !s.incs[i].stopRequested
    ensures Run(Apply(s, ChildExits(i, failed)), acts, t)
    ensures Reported(t, i, UnstoppedStatus(failed, s.incs[i].exitCodes))
  {
    ReachableInv(s);
    var mid := EndsOutput(s, i, failed);
    var u := Apply(s, ChildExits(i, failed));
    acts, t := LifecycleRuns.OwnStepsSuffice(mid, i);
    PlainRunTells(mid, acts, t, i);
    assert IncOk(i, t.incs[i]);
    StatusOfFinished(t, i);
    if mid != u {
      assert ([ChildEof(i)] + acts)[1..] == acts;
      acts := [ChildEof(i)] + acts;
    }
  }

  lemma EndsOutput(s: State, i: nat, failed: bool) returns (t: State)
    requires Inv(s) && i < |s.incs| && s.incs[i].registered && !s.incs[i].exited && !s.incs[i].stopRequested
    ensures Enabled(s, ChildExits(i, failed)) && Inv(t)
    ensures var u := Apply(s, ChildExits(i, failed));
            t == u || (Enabled(u, ChildEof(i)) && t == Apply(u, ChildEof(i)))
    ensures i < |t.incs| && LifecycleRuns.Ended(t.incs[i])
    ensures Codes(t, i) == s.incs[i].exitCodes && Failed(t, i) == failed && !StopAsked(t, i)
  {
    var u := Apply(s, ChildExits(i, failed));
    StepKeeps(s, ChildExits(i, failed));
    JustExits(s, i, failed);
    if u.incs[i].eof {
      t := u;
    } else {
      t := Apply(u, ChildEof(i));
      StepKeeps(u, ChildEof(i));
      JustEof(u, i);
    }
  }

  lemma JustExits(s: State, i: nat, failed: bool)
    requires i < |s.incs| && Enabled(s, ChildExits(i, failed))
    ensures Apply(s, ChildExits(i, failed)) == s.(incs := s.incs[i := s.incs[i].(exited := true, failed := failed)])
  {
    assert Apply(s, ChildExits(i, failed)) == ApplyChild(s, ChildExits(i, failed));
  }

  lemma JustEof(s: State, i: nat)
    requires i < |s.incs| && Enabled(s, ChildEof(i))
    ensures Apply(s, ChildEof(i)) == s.(incs := s.incs[i := s.incs[i].(eof := true)])
  {
    assert Apply(s, ChildEof(i)) == ApplyChild(s, ChildEof(i));
  }

  lemma StatusOfFinished(t: State, i: nat)
    requires Inv(t) && i < |t.incs| && t.incs[i].done == 1 && !t.incs[i].stopRequested
    ensures Reported(t, i, UnstoppedStatus(t.incs[i].failed, t.incs[i].exitCodes))
  {
    assert IncOk(i, t.incs[i]);
    assert HasTerminal(t.events, i);
    var p :| 0 <= p < |t.events| && IsTerminal(t.events[p], i);
    assert EventOk(t.events[p], t.starts, t.incs);
    assert t.events[p] == Terminal(i, UnstoppedStatus(t.incs[i].failed, t.incs[i].exitCodes));
  }

  /** Exit lines are read: a line the child writes can be read next, and then its code is the last one known. */
  lemma ExitLineIsRead(s: State, i: nat, code: int) returns (t: State)
    requires Reachable(s) && i < |s.incs| && s.incs[i].reader.RReading? && !s.incs[i].eof
    ensures Run(s, [ChildWrites(i), ReadLine(i, Exit(code))], t) && i < |t.incs|
    ensures t.incs[i].exitCodes == s.incs[i].exitCodes + [code] && t.incs[i].lines == s.incs[i].lines
    ensures t.incs[i].reader == s.incs[i].reader && t.incs[i].stopRequested == s.incs[i].stopRequested
  {
    ReachableInv(s);
    assert IncOk(i, s.incs[i]);
    var u := Apply(s, ChildWrites(i));
    JustWrites(s, i);
    t := Apply(u, ReadLine(i, Exit(code)));
    JustReads(u, i, code);
    TwoSteps(s, ChildWrites(i), u, ReadLine(i, Exit(code)), t);
  }

  lemma TwoSteps(s: State, a: Action, u: State, b: Action, t: State)
    requires Enabled(s, a) && u == Apply(s, a) && Enabled(u, b) && t == Apply(u, b)
    ensures Run(s, [a, b], t)
  {
    assert Run(t, [], t) && [b][1..] == [];
    assert Run(u, [b], t);
    assert [a, b][1..] == [b];
  }

  lemma JustWrites(s: State, i: nat)
    requires i < |s.incs| && Enabled(s, ChildWrites(i))
    ensures Apply(s, ChildWrites(i)) == s.(incs := s.incs[i := s.incs[i].(lines := s.incs[i].lines + 1)])
  {
    assert Apply(s, ChildWrites(i)) == ApplyChild(s, ChildWrites(i));
  }

  lemma JustReads(s: State, i: nat, code: int)
    requires i < |s.incs| && Enabled(s, ReadLine(i, Exit(code)))
    ensures var t := Apply(s, ReadLine(i, Exit(code)));
            && i < |t.incs| && t.incs[i].exitCodes == s.incs[i].exitCodes + [code]
            && t.incs[i].lines == s.incs[i].lines - 1 && t.incs[i].reader == s.incs[i].reader
            && t.incs[i].stopRequested == s.incs[i].stopRequested
  {
    assert Apply(s, ReadLine(i, Exit(code))) == ApplyReader(s, ReadLine(i, Exit(code)));
  }
}
