/** StopBot and StopAll of internal/process/manager.go as the calling goroutine runs them, over the
    lifecycle machine: between any two of the caller's steps the others take whatever steps the
    schedule gives them. */
module StopAll {
  import opened Prelude
  import L = Lifecycle
  import LifecycleInv

  /** What happens around the caller, turn by turn: the others' steps (those not possible when their
      turn comes are passed over), whether the stop timer fires and Kill works, whether the caller's
      context is done. The caller is observed for `turns` turns. */
  datatype Schedule = Schedule(
    others: nat -> seq<L.Action>,
    timer: nat -> Option<bool>,
    ctxDone: nat -> bool,
    turns: nat
  )

  /** The calls' results; Unfinished if the observation ended first. */
  datatype StopResult = Stopped | Error(error: L.StopError) | Unfinished

  datatype StopAllResult = Finished(firstErr: Option<L.StopError>) | CtxError | StillRunning

  /** A step of the caller's own StopBot call, which nobody else takes. */
  predicate OfCall(a: L.Action, own: Option<nat>) {
    (a.StopFlag? || a.StopTimeout? || a.StopReturn?) && own == Some(a.k)
  }

  /** The others' steps, as far as possible. */
  function Others(s: L.State, acts: seq<L.Action>, own: Option<nat>): L.State
    decreases |acts|
  {
    if acts == [] then s
    else if L.Enabled(s, acts[0]) && !OfCall(acts[0], own) then Others(L.Apply(s, acts[0]), acts[1..], own)
    else Others(s, acts[1..], own)
  }

  /** Nobody gets a bot past StartBot's second check meanwhile. */
  ghost predicate NoStarts(w: Schedule) {
    forall n, a :: a in w.others(n) ==> !a.SecondCheck?
  }

  ghost predicate KillsWork(w: Schedule) {
    forall n :: w.timer(n) != Some(false)
  }

  ghost predicate CtxLives(w: Schedule) {
    forall n :: !w.ctxDone(n)
  }

  /** Entries may go, but none appears or changes. */
  ghost predicate Shrinks(a: map<string, nat>, b: map<string, nat>) {
    forall x :: x in b ==> x in a && b[x] == a[x]
  }

  /** What a StopBot call has come to. */
  function ResultOf(at: L.StopAt): StopResult {
    match at
    case StoppedNil(_) => Stopped
    case StopFailed(error) => Error(error)
    case _ => Unfinished
  }

  /** Calls are only added, and a finished one is never touched again. */
  ghost predicate CallsStand(before: seq<L.StopCall>, after: seq<L.StopCall>) {
    && |before| <= |after|
    && (forall k :: 0 <= k < |before| ==>
          && after[k].botId == before[k].botId
          && (ResultOf(before[k].at) != Unfinished ==> after[k] == before[k]))
  }

  /** One of the others' steps: entries only go, and the caller's call k stays as it is. */
  ghost predicate Harmless(s: L.State, a: L.Action, k: nat)
    requires L.Enabled(s, a)
  {
    var s' := L.Apply(s, a);
    && CallsStand(s.stops, s'.stops)
    && (!a.SecondCheck? ==> Shrinks(s.procs, s'.procs))
    && (k < |s.stops| && !OfCall(a, Some(k)) ==> k < |s'.stops| && s'.stops[k] == s.stops[k])
  }

  lemma StepIsHarmless(s: L.State, a: L.Action, k: nat)
    requires L.Enabled(s, a)
    ensures Harmless(s, a, k)
  {
    if L.StartAction(a) { StartIsHarmless(s, a, k); }
    else if L.MonitorAction(a) { MonitorIsHarmless(s, a, k); }
    else if L.ReaderAction(a) { ReaderIsHarmless(s, a, k); }
    else if L.ChildAction(a) { ChildIsHarmless(s, a, k); }
    else { CallIsHarmless(s, a, k); }
  }

  lemma StartIsHarmless(s: L.State, a: L.Action, k: nat)
    requires L.Enabled(s, a) && L.StartAction(a)
    ensures Harmless(s, a, k)
  {
  }

  lemma ChildIsHarmless(s: L.State, a: L.Action, k: nat)
    requires L.Enabled(s, a) && L.ChildAction(a)
    ensures Harmless(s, a, k)
  {
    assert L.Apply(s, a) == L.ApplyChild(s, a);
  }

  lemma ReaderIsHarmless(s: L.State, a: L.Action, k: nat)
    requires L.Enabled(s, a) && L.ReaderAction(a)
    ensures Harmless(s, a, k)
  {
    assert L.Apply(s, a) == L.ApplyReader(s, a);
  }

  lemma MonitorIsHarmless(s: L.State, a: L.Action, k: nat)
    requires L.Enabled(s, a) && L.MonitorAction(a)
    ensures Harmless(s, a, k)
  {
    assert L.Apply(s, a) == L.ApplyMonitor(s, a);
  }

  lemma CallIsHarmless(s: L.State, a: L.Action, k: nat)
    requires L.Enabled(s, a) && !L.StartAction(a) && !L.ChildAction(a) && !L.ReaderAction(a) && !L.MonitorAction(a)
    ensures Harmless(s, a, k)
  {
  }

  /** Nothing the others did concerns the caller: its call is as it was, finished calls stand, and entries
      only go if nobody started a bot. */
  ghost predicate Undisturbed(s: L.State, t: L.State, own: Option<nat>, noStarts: bool) {
    && CallsStand(s.stops, t.stops)
    && (own.Some? && own.value < |s.stops| ==> own.value < |t.stops| && t.stops[own.value] == s.stops[own.value])
    && (noStarts ==> Shrinks(s.procs, t.procs))
  }

  lemma StepIsUndisturbing(s: L.State, a: L.Action, own: Option<nat>)
    requires L.Enabled(s, a) && !OfCall(a, own)
    ensures Undisturbed(s, L.Apply(s, a), own, !a.SecondCheck?)
  {
    StepIsHarmless(s, a, if own.Some? then own.value else 0);
  }

  lemma UndisturbedJoin(s: L.State, t: L.State, u: L.State, own: Option<nat>, noStarts: bool)
    requires Undisturbed(s, t, own, noStarts) && Undisturbed(t, u, own, noStarts)
    ensures Undisturbed(s, u, own, noStarts)
  {
  }

  lemma {:induction false} OthersKeep(s: L.State, acts: seq<L.Action>, own: Option<nat>, noStarts: bool)
    requires LifecycleInv.Inv(s)
    requires noStarts ==> forall a :: a in acts ==> !a.SecondCheck?
    ensures LifecycleInv.Inv(Others(s, acts, own)) && Undisturbed(s, Others(s, acts, own), own, noStarts)
    decreases |acts|
  {
    if acts != [] {
      var a := acts[0];
      assert a in acts && forall b :: b in acts[1..] ==> b in acts;
      if L.Enabled(s, a) && !OfCall(a, own) {
        LifecycleInv.StepKeeps(s, a);
        StepIsUndisturbing(s, a, own);
        OthersKeep(L.Apply(s, a), acts[1..], own, noStarts);
        UndisturbedJoin(s, L.Apply(s, a), Others(s, acts, own), own, noStarts);
      } else {
        OthersKeep(s, acts[1..], own, noStarts);
      }
    }
  }

  /** The caller's own call in its waiting stages refers to a BotProcess that exists. */
  lemma CallExists(s: L.State, k: nat)
    requires LifecycleInv.Inv(s) && k < |s.stops|
    ensures L.StopExists(s, k)
  {
    assert LifecycleInv.StopOk(s.stops[k], s.incs);
  }

  /** Incarnation i of the bot was asked to stop, has left the registry, has sent its status and closed Done. */
  ghost predicate IsOver(s: L.State, i: nat, botId: string) {
    && i < |s.incs| && s.incs[i].cmd.botId == botId
    && s.incs[i].stopRequested && s.incs[i].done == 1
    && i !in s.procs.Values && LifecycleInv.HasTerminal(s.events, i)
  }

  lemma StoppedIsOver(s: L.State, k: nat)
    requires LifecycleInv.Inv(s) && k < |s.stops| && s.stops[k].at.StoppedNil?
    ensures IsOver(s, s.stops[k].at.i, s.stops[k].botId)
  {
    assert LifecycleInv.StopOk(s.stops[k], s.incs);
    assert LifecycleInv.IncOk(s.stops[k].at.i, s.incs[s.stops[k].at.i]);
  }

  lemma AfterStop(s: L.State, k: nat, i: nat, before: map<string, nat>)
    requires LifecycleInv.Inv(s) && k < |s.stops| && s.stops[k].at == L.StoppedNil(i)
    requires s.stops[k].botId in before && before[s.stops[k].botId] == i
    ensures Shrinks(before, s.procs) ==> s.stops[k].botId !in s.procs
    ensures IsOver(s, i, s.stops[k].botId)
  {
    StoppedIsGone(s, k, i, before);
    StoppedIsOver(s, k);
  }

  /** It looks the bot id up. */
  lemma BeginEffect(s: L.State, botId: string)
    ensures L.Enabled(s, L.StopBegin(botId))
    ensures var s', at := L.Apply(s, L.StopBegin(botId)),
                          if botId in s.procs then L.Captured(s.procs[botId]) else L.StopFailed(L.NotRunning);
            s'.procs == s.procs && s'.stops == s.stops + [L.StopCall(botId, at)]
  {
  }

  /** Its first step. */
  lemma FlagStep(s: L.State, k: nat, i: nat)
    requires k < |s.stops| && s.stops[k].at == L.Captured(i) && L.StopExists(s, k)
    ensures L.Enabled(s, L.StopFlag(k))
    ensures var s' := L.Apply(s, L.StopFlag(k));
            s'.procs == s.procs && s'.stops == s.stops[k := s.stops[k].(at := L.Waiting(i))]
  {
  }

  /** The caller's own steps while it waits touch no entry. */
  lemma OwnWaitSteps(s: L.State, k: nat, killOk: bool)
    requires k < |s.stops|
    ensures L.Enabled(s, L.StopReturn(k)) ==>
              var s' := L.Apply(s, L.StopReturn(k));
              s'.procs == s.procs && s'.stops == s.stops[k := s.stops[k].(at := L.StoppedNil(s.stops[k].at.i))]
    ensures L.Enabled(s, L.StopTimeout(k, killOk)) ==>
              var s' := L.Apply(s, L.StopTimeout(k, killOk));
              var at := if killOk then L.KillSent(s.stops[k].at.i) else L.StopFailed(L.KillFailed);
              s'.procs == s.procs && s'.stops == s.stops[k := s.stops[k].(at := at)]
  {
  }

  /** Entries having only gone, a bot id whose captured entry has gone has none. */
  lemma StoppedIsGone(s: L.State, k: nat, i: nat, before: map<string, nat>)
    requires LifecycleInv.Inv(s) && k < |s.stops| && s.stops[k].at == L.StoppedNil(i)
    requires s.stops[k].botId in before && before[s.stops[k].botId] == i
    ensures Shrinks(before, s.procs) ==> s.stops[k].botId !in s.procs
  {
    assert LifecycleInv.StopOk(s.stops[k], s.incs);
  }

  function FirstError(results: seq<StopResult>): Option<L.StopError> {
    if results == [] then None
    else if results[0].Error? then Some(results[0].error)
    else FirstError(results[1..])
  }

  /** It is the error of the first call that has one, and None if none has. */
  lemma {:induction false} FirstErrorIsFirst(results: seq<StopResult>, error: L.StopError)
    ensures FirstError(results) == Some(error) <==>
            exists j :: 0 <= j < |results| && results[j] == Error(error) && NoErrorBefore(results, j)
    ensures FirstError(results) == None <==> NoErrorBefore(results, |results|)
  {
    if results != [] {
      var rest := results[1..];
      FirstErrorIsFirst(rest, error);
      if results[0].Error? {
        assert NoErrorBefore(results, 0);
      } else {
        forall j | 0 <= j <= |rest|
          ensures NoErrorBefore(results, j + 1) <==> NoErrorBefore(rest, j)
        {
          NoErrorShift(results, j);
        }
        if j :| 0 <= j < |rest| && rest[j] == Error(error) && NoErrorBefore(rest, j) {
          assert results[j + 1] == Error(error) && NoErrorBefore(results, j + 1);
        }
        if j :| 0 <= j < |results| && results[j] == Error(error) && NoErrorBefore(results, j) {
          assert rest[j - 1] == Error(error) && NoErrorBefore(rest, j - 1);
        }
      }
    }
  }

  predicate NoErrorBefore(results: seq<StopResult>, j: nat) {
    forall i :: 0 <= i < j && i < |results| ==> !results[i].Error?
  }

  lemma NoErrorShift(results: seq<StopResult>, j: nat)
    requires results != [] && !results[0].Error?
    ensures NoErrorBefore(results, j + 1) <==> NoErrorBefore(results[1..], j)
  {
    if NoErrorBefore(results[1..], j) {
      assert forall i :: 0 < i < j + 1 && i < |results| ==> results[i] == results[1..][i - 1];
    }
  }

  lemma {:induction false} FirstErrorAppend(results: seq<StopResult>, r: StopResult)
    ensures FirstError(results + [r]) ==
            if FirstError(results).None? && r.Error? then Some(r.error) else FirstError(results)
  {
    if results != [] {
      FirstErrorAppend(results[1..], r);
      assert (results + [r])[1..] == results[1..] + [r];
    }
  }

  class Host {
    var st: L.State
    var clock: nat
    const world: Schedule

    ghost predicate Valid()
      reads this
    {
      LifecycleInv.Inv(st)
    }

    constructor (st: L.State, world: Schedule)
      requires LifecycleInv.Inv(st)
      ensures Valid() && this.st == st && this.world == world && clock == 0
    {
      this.st := st;
      this.world := world;
      clock := 0;
    }

    /** The others have a turn. */
    method Yield(own: Option<nat>)
      requires Valid()
      modifies this
      ensures Valid() && clock == old(clock) + 1
      ensures own.Some? && own.value < |old(st.stops)| ==>
                own.value < |st.stops| && st.stops[own.value] == old(st.stops)[own.value]
      ensures NoStarts(world) ==> Shrinks(old(st.procs), st.procs)
      ensures CallsStand(old(st.stops), st.stops)
    {
      ghost var quiet := forall a :: a in world.others(clock) ==> !a.SecondCheck?;
      OthersKeep(st, world.others(clock), own, quiet);
      st := Others(st, world.others(clock), own);
      clock := clock + 1;
    }

    /** One step of the caller's own. */
    method Own(a: L.Action)
      requires Valid() && L.Enabled(st, a)
      modifies `st
      ensures Valid() && st == L.Apply(old(st), a)
      ensures CallsStand(old(st.stops), st.stops)
    {
      LifecycleInv.StepKeeps(st, a);
      StepIsHarmless(st, a, 0);
      st := L.Apply(st, a);
    }

    /** Its own call k waits for incarnation i, before or after Kill. */
    predicate Waits(k: nat, i: nat)
      reads this
    {
      k < |st.stops| && (st.stops[k].at == L.Waiting(i) || st.stops[k].at == L.KillSent(i))
    }

    /** One turn of waiting: the others run, then Done or the timer may be ready. */
    method WaitTurn(k: nat, ghost i: nat) returns (r: Option<StopResult>)
      requires Valid() && Waits(k, i)
      modifies this
      ensures Valid() && clock == old(clock) + 1
      ensures NoStarts(world) ==> Shrinks(old(st.procs), st.procs)
      ensures CallsStand(old(st.stops), st.stops)
      ensures r.None? ==> Waits(k, i) && st.stops[k].botId == old(st.stops)[k].botId
      ensures r.Some? ==> ResultOf(st.stops[k].at) == r.value
      ensures r == Some(Stopped) ==> k < |st.stops| && st.stops[k] == old(st.stops)[k].(at := L.StoppedNil(i))
      ensures r.None? || r == Some(Stopped) || (r == Some(Error(L.KillFailed)) && !KillsWork(world))
    {
      Yield(Some(k));
      CallExists(st, k);
      var fired := world.timer(clock);
      OwnWaitSteps(st, k, true);
      if L.Enabled(st, L.StopReturn(k)) {
        Own(L.StopReturn(k));
        return Some(Stopped);
      }
      if st.stops[k].at.Waiting? && fired.Some? {
        r := Expire(k, i, fired.value);
      } else {
        r := None;
      }
    }

    /** The timer fires: kill the child, and go on waiting if that worked. */
    method Expire(k: nat, ghost i: nat, killOk: bool) returns (r: Option<StopResult>)
      requires Valid() && Waits(k, i) && st.stops[k].at.Waiting?
      modifies `st
      ensures Valid() && st.procs == old(st.procs)
      ensures CallsStand(old(st.stops), st.stops)
      ensures r.Some? ==> ResultOf(st.stops[k].at) == r.value
      ensures killOk ==> r == None && Waits(k, i) && st.stops[k].botId == old(st.stops)[k].botId
      ensures !killOk ==> r == Some(Error(L.KillFailed))
    {
      CallExists(st, k);
      OwnWaitSteps(st, k, killOk);
      Own(L.StopTimeout(k, killOk));
      r := if killOk then None else Some(Error(L.KillFailed));
    }

    /** The select on Done and the timer, and the wait after Kill. */
    method Await(k: nat, ghost i: nat) returns (r: StopResult)
      requires Valid() && Waits(k, i)
      modifies this
      ensures Valid() && clock >= old(clock)
      ensures NoStarts(world) ==> Shrinks(old(st.procs), st.procs)
      ensures CallsStand(old(st.stops), st.stops) && r == ResultOf(st.stops[k].at)
      ensures r == Stopped ==> k < |st.stops| && st.stops[k] == old(st.stops)[k].(at := L.StoppedNil(i))
      ensures r != Error(L.NotRunning)
      ensures KillsWork(world) ==> !r.Error?
    {
      while clock < world.turns
        invariant Valid() && clock >= old(clock)
        invariant Waits(k, i) && st.stops[k].botId == old(st.stops)[k].botId
        invariant CallsStand(old(st.stops), st.stops)
        invariant NoStarts(world) ==> Shrinks(old(st.procs), st.procs)
        decreases world.turns - clock
      {
        var done := WaitTurn(k, i);
        if done.Some? {
          return done.value;
        }
      }
      return Unfinished;
    }

    /** Its own call, number k, is a new one, and what it returns is what that call came to. Returning nil
        or "not running" means the bot id has no entry that was there at the call; nobody
        starting bots meanwhile, it has none at all. */
    method StopBot(botId: string) returns (r: StopResult, ghost k: nat)
      requires Valid()
      modifies this
      ensures Valid() && clock >= old(clock)
      ensures CallsStand(old(st.stops), st.stops)
      ensures |old(st.stops)| <= k < |st.stops| && st.stops[k].botId == botId && r == ResultOf(st.stops[k].at)
      ensures NoStarts(world) ==> Shrinks(old(st.procs), st.procs)
      ensures NoStarts(world) && (r == Stopped || r == Error(L.NotRunning)) ==> botId !in st.procs
      ensures r == Stopped ==> IsOver(st, st.stops[k].at.i, botId)
      ensures KillsWork(world) && r.Error? ==> r.error == L.NotRunning
    {
      Yield(None);
      var call := |st.stops|;
      k := call;
      ghost var before := st.procs;
      BeginEffect(st, botId);
      Own(L.StopBegin(botId));
      if st.stops[call].at.StopFailed? {
        r := Error(L.NotRunning);
        return;
      }
      ghost var i := before[botId];
      r := Stop(call, i);
      if r == Stopped {
        AfterStop(st, k, i, before);
      }
    }

    /** The rest of StopBot for a call that has captured incarnation i. */
    method Stop(k: nat, ghost i: nat) returns (r: StopResult)
      requires Valid() && k < |st.stops| && st.stops[k].at == L.Captured(i)
      modifies this
      ensures Valid() && clock >= old(clock)
      ensures NoStarts(world) ==> Shrinks(old(st.procs), st.procs)
      ensures CallsStand(old(st.stops), st.stops) && r == ResultOf(st.stops[k].at)
      ensures r == Stopped ==> k < |st.stops| && st.stops[k] == old(st.stops)[k].(at := L.StoppedNil(i))
      ensures r != Error(L.NotRunning)
      ensures KillsWork(world) ==> !r.Error?
    {
      Yield(Some(k));
      CallExists(st, k);
      FlagStep(st, k, i);
      Own(L.StopFlag(k));
      r := Await(k, i);
    }

    /** GetRunningBots: the keys of the registry, in whatever order the map gives them. */
    method GetRunningBots() returns (bots: seq<string>)
      ensures forall b :: b in bots <==> b in st.procs
      ensures forall i, j :: 0 <= i < j < |bots| ==> bots[i] != bots[j]
    {
      bots := [];
      var rest := st.procs.Keys;
      while rest != {}
        invariant rest <= st.procs.Keys
        invariant forall b :: b in bots <==> b in st.procs && b !in rest
        invariant forall i, j :: 0 <= i < j < |bots| ==> bots[i] != bots[j]
        decreases rest
      {
        var b :| b in rest;
        bots := bots + [b];
        rest := rest - {b};
      }
    }

    /** One turn of StopAll: the next bot of the snapshot. */
    method StopNext(botId: string, ghost bots: seq<string>, ghost calls: seq<nat>, ghost base: nat,
                    firstErr: Option<L.StopError>)
      returns (stopped: StopResult, firstErr': Option<L.StopError>, ghost k: nat)
      requires Valid() && base <= |st.stops| && Tally(bots, calls, base, st.stops, firstErr)
      requires |calls| < |bots| && bots[|calls|] == botId
      modifies this
      ensures Valid() && clock >= old(clock) && base <= |st.stops|
      ensures CallsOf(bots, calls + [k], base, st.stops) && stopped == ResultOf(st.stops[k].at)
      ensures stopped != Unfinished ==> Tally(bots, calls + [k], base, st.stops, firstErr')
      ensures stopped == Unfinished ==> firstErr' == firstErr
      ensures NoStarts(world) ==> Shrinks(old(st.procs), st.procs)
      ensures NoStarts(world) && KillsWork(world) && stopped != Unfinished ==> botId !in st.procs
      ensures KillsWork(world) ==> firstErr' == firstErr || firstErr' == Some(L.NotRunning)
    {
      ghost var stops := st.stops;
      stopped, k := StopBot(botId);
      OneMoreCall(bots, calls, k, base, stops, st.stops, firstErr);
      firstErr' := firstErr;
      if stopped.Error? && firstErr.None? {
        firstErr' := Some(stopped.error);
      }
    }

    /** Stops the bots of a snapshot one after the other, by one new StopBot call for each, in snapshot
        order. The error is the first one among what these calls came to. Unless the context expires, a
        Kill fails or somebody starts a bot meanwhile, nothing is left when it returns, whatever it
        returns, and the error, if any, is that a bot had already gone. */
    method StopAll() returns (r: StopAllResult, ghost bots: seq<string>, ghost calls: seq<nat>)
      requires Valid()
      modifies this
      ensures Valid() && |calls| <= |bots|
      ensures forall b :: b in bots <==> b in old(st.procs)
      ensures forall i, j :: 0 <= i < j < |bots| ==> bots[i] != bots[j]
      ensures CallsOf(bots, calls, |old(st.stops)|, st.stops)
      ensures r.Finished? ==> r.firstErr == FirstError(Results(st.stops, calls))
      ensures r == CtxError ==> FirstError(Results(st.stops, calls)) == None
      ensures r == StillRunning ==> calls != [] && ResultOf(st.stops[calls[|calls| - 1]].at) == Unfinished
      ensures r != StillRunning ==> Unfinished !in Results(st.stops, calls)
      ensures r == CtxError ==> |calls| < |bots|
      ensures r.Finished? && r.firstErr.None? ==> |calls| == |bots|
      ensures r != StillRunning && |calls| < |bots| ==> exists n :: old(clock) <= n <= clock && world.ctxDone(n)
      ensures CtxLives(world) ==> r != CtxError && (r.Finished? ==> |calls| == |bots|)
      ensures CtxLives(world) && KillsWork(world) && NoStarts(world) && r.Finished? ==>
                st.procs == map[] && (r.firstErr == None || r.firstErr == Some(L.NotRunning))
    {
      var names := GetRunningBots();
      bots := names;
      calls := [];
      var firstErr: Option<L.StopError> := None;
      for j := 0 to |names|
        invariant Valid() && |calls| == j && clock >= old(clock)
        invariant |old(st.stops)| <= |st.stops|
        invariant Tally(names, calls, |old(st.stops)|, st.stops, firstErr)
        invariant NoStarts(world) ==> Shrinks(old(st.procs), st.procs)
        invariant KillsWork(world) && NoStarts(world) ==> Gone(names, j, st.procs)
        invariant KillsWork(world) ==> firstErr == None || firstErr == Some(L.NotRunning)
      {
        if world.ctxDone(clock) {
          r := if firstErr.Some? then Finished(firstErr) else CtxError;
          return;
        }
        ghost var before := st.procs;
        var stopped;
        ghost var k;
        stopped, firstErr, k := StopNext(names[j], names, calls, |old(st.stops)|, firstErr);
        calls := calls + [k];
        if stopped == Unfinished {
          r := StillRunning;
          return;
        }
        GoneFurther(names, j, before, st.procs);
      }
      NobodyLeft(names, old(st.procs), st.procs);
      r := Finished(firstErr);
    }
  }

  /** Call number calls[j] is a StopBot call for bots[j], begun after the first `base` calls, and the calls
      were begun one after the other. */
  ghost predicate CallsOf(bots: seq<string>, calls: seq<nat>, base: nat, stops: seq<L.StopCall>) {
    && |calls| <= |bots|
    && (forall j :: 0 <= j < |calls| ==> base <= calls[j] < |stops| && stops[calls[j]].botId == bots[j])
    && (forall i, j :: 0 <= i < j < |calls| ==> calls[i] < calls[j])
  }

  /** What the calls came to. */
  function Results(stops: seq<L.StopCall>, calls: seq<nat>): (r: seq<StopResult>)
    requires forall j :: 0 <= j < |calls| ==> calls[j] < |stops|
    ensures |r| == |calls|
  {
    seq(|calls|, j requires 0 <= j < |calls| => ResultOf(stops[calls[j]].at))
  }

  /** The calls so far have all come to something, firstErr being the first error among it. */
  ghost predicate Tally(bots: seq<string>, calls: seq<nat>, base: nat, stops: seq<L.StopCall>,
                        firstErr: Option<L.StopError>) {
    && CallsOf(bots, calls, base, stops)
    && Unfinished !in Results(stops, calls)
    && firstErr == FirstError(Results(stops, calls))
  }

  /** A further call, with the earlier ones finished. */
  lemma OneMoreCall(bots: seq<string>, calls: seq<nat>, k: nat, base: nat,
                    before: seq<L.StopCall>, after: seq<L.StopCall>, firstErr: Option<L.StopError>)
    requires Tally(bots, calls, base, before, firstErr) && CallsStand(before, after)
    requires |calls| < |bots| && base <= |before| <= k < |after| && after[k].botId == bots[|calls|]
    ensures CallsOf(bots, calls + [k], base, after)
    ensures var r := ResultOf(after[k].at);
            r != Unfinished ==>
              Tally(bots, calls + [k], base, after, if firstErr.None? && r.Error? then Some(r.error) else firstErr)
  {
    forall j | 0 <= j < |calls|
      ensures after[calls[j]] == before[calls[j]]
    {
      assert Results(before, calls)[j] in Results(before, calls);
    }
    FirstErrorAppend(Results(before, calls), ResultOf(after[k].at));
    assert Results(after, calls + [k]) == Results(before, calls) + [ResultOf(after[k].at)];
  }

  lemma NobodyLeft(names: seq<string>, before: map<string, nat>, after: map<string, nat>)
    requires forall b :: b in names <==> b in before
    ensures Shrinks(before, after) && Gone(names, |names|, after) ==> after == map[]
  {
    if Shrinks(before, after) && Gone(names, |names|, after) {
      forall b
        ensures b !in after
      {
        if b in names {
          var j :| 0 <= j < |names| && names[j] == b;
        }
      }
      assert after.Keys == {};
    }
  }

  lemma GoneFurther(names: seq<string>, j: nat, before: map<string, nat>, after: map<string, nat>)
    requires j < |names|
    ensures Gone(names, j, before) && Shrinks(before, after) && names[j] !in after ==> Gone(names, j + 1, after)
  {
  }

  /** The first n of the names have no entry. */
  ghost predicate Gone(names: seq<string>, n: nat, procs: map<string, nat>) {
    forall j :: 0 <= j < n && j < |names| ==> names[j] !in procs
  }
}
