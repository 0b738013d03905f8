/** The supervisor gets there: a lost connection is replaced, and a cancelled context ends it. */
module GenerationsProgress {
  import opened Prelude
  import opened Generations
  import opened GenerationsRuns

  lemma Extend(s: State, acts: seq<Action>, t: State, a: Action) returns (u: State)
    requires Run(s, acts, t) && Enabled(t, a)
    ensures Run(s, acts + [a], u) && u == Apply(t, a)
  {
    RunExtends(s, acts, t, a);
    u := Apply(t, a);
  }

  /** With the done channel closed: the supervisor wakes, backs off, dials, installs and signals. */
  lemma WakesAndReconnects(s: State) returns (t: State)
    requires s.live && s.sup.at.WaitingOn? && IsClosed(s.link, s.sup.at.gen)
    ensures Run(s, [Wake, CheckContext, TimerFires] + [Install, Announce], t)
    ensures t.link == InstallGen(s.link) && t.live && t.sup == Supervisor(Reading, DEFAULT_BACKOFF, 0, [])
  {
    var mid := BacksOff(s);
    var u := Extend(s, [Wake, CheckContext, TimerFires], mid, Install);
    t := Extend(s, [Wake, CheckContext, TimerFires] + [Install], u, Announce);
    assert [Wake, CheckContext, TimerFires] + [Install] + [Announce]
        == [Wake, CheckContext, TimerFires] + [Install, Announce];
  }

  lemma BacksOff(s: State) returns (t: State)
    requires s.live && s.sup.at.WaitingOn? && IsClosed(s.link, s.sup.at.gen)
    ensures Run(s, [Wake, CheckContext, TimerFires], t)
    ensures t.sup.at == Dialing(false) && t.link == s.link && t.live
  {
    var a := Apply(s, Wake);
    var b := Apply(a, CheckContext);
    t := Apply(b, TimerFires);
    assert Run(t, [], t) && [TimerFires][1..] == [];
    assert Run(b, [TimerFires], t) && [CheckContext, TimerFires][1..] == [TimerFires];
    assert Run(a, [CheckContext, TimerFires], t) && [Wake, CheckContext, TimerFires][1..] == [CheckContext, TimerFires];
  }

  /** Steps of a report in flight and of the supervisor. */
  predicate ReconnectAction(a: Action) {
    a.ReportCancel? || a.ReportClose? || a.ReportDone? || a.Wake? || a.CheckContext? || a.TimerFires? || a.Install?
    || a.Announce?
  }

  /** Reconnection: whenever the supervisor waits and the connection is gone, the steps left to one report in
      flight, if the channel is not closed yet, and the supervisor's own bring a new, open connection,
      and the backoff starts afresh. */
  lemma LostConnectionIsReplaced(s: State) returns (acts: seq<Action>, t: State)
    requires Reachable(s) && s.live && s.sup.at.WaitingOn? && !s.link.connected
    ensures Run(s, acts, t) && forall a :: a in acts ==> ReconnectAction(a)
    ensures t.link.connected && t.link.gens != [] && t.link.gens[|t.link.gens| - 1].open
    ensures t.link.conn == Some(|t.link.gens| - 1) && t.sup.at == Reading && t.sup.backoff == DEFAULT_BACKOFF
  {
    NoLostDisconnect(s);
    ReachableInv(s);
    var gen, closing, mid := s.sup.at.gen, [], s;
    if !IsClosed(s.link, gen) {
      var r :| Promises(s, r, gen);
      closing := Remaining(r, s.reports[r].phase);
      mid := PromiseIsKept(s, r, gen);
    }
    t := WakesAndReconnects(mid);
    acts := closing + ([Wake, CheckContext, TimerFires] + [Install, Announce]);
    RunsJoin(s, closing, mid, [Wake, CheckContext, TimerFires] + [Install, Announce], t);
  }

  lemma {:induction false} RunsJoin(s: State, a: seq<Action>, t: State, b: seq<Action>, u: State)
    requires Run(s, a, t) && Run(t, b, u)
    ensures Run(s, a + b, u)
    decreases |a|
  {
    if a == [] {
      assert a + b == b;
    } else {
      RunsJoin(Apply(s, a[0]), a[1..], t, b, u);
      assert (a + b)[1..] == a[1..] + b;
    }
  }

  /** n further attempts that fail. */
  function FailedAttempts(n: nat): (acts: seq<Action>) {
    if n == 0 then [] else [TimerFires, DialFail] + FailedAttempts(n - 1)
  }

  /** Each failed attempt has waited for the delay of its turn, and makes the next one longer up to the bound. */
  lemma {:induction false} FailedAttemptsBackOff(s: State, n: nat) returns (t: State)
    requires Inv(s) && s.sup.at == BackingOff
    ensures Run(s, FailedAttempts(n), t) && Inv(t) && t.sup.at == BackingOff && t.link == s.link
    ensures t.sup.failures == s.sup.failures + n && t.sup.backoff == Delay(s.sup.failures + n)
    ensures t.sup.waits == Delays(s.sup.failures + n)
    decreases n
  {
    if n == 0 {
      t := s;
    } else {
      var mid := Apply(s, TimerFires);
      var u := Apply(mid, DialFail);
      StepKeeps(s, TimerFires);
      StepKeeps(mid, DialFail);
      t := FailedAttemptsBackOff(u, n - 1);
      assert Run(mid, [DialFail] + FailedAttempts(n - 1), t) by {
        assert ([DialFail] + FailedAttempts(n - 1))[1..] == FailedAttempts(n - 1);
      }
      assert FailedAttempts(n)[1..] == [DialFail] + FailedAttempts(n - 1);
    }
  }

  /** How many steps a point is from the end once the context is cancelled. */
  function ToExit(at: Point): nat {
    match at
    case Installed(_) => 3
    case Reading => 2
    case Dialing(first) => if first then 1 else 2
    case WaitingOn(_) => 1
    case Woken(_) => 1
    case BackingOff => 1
    case _ => 0
  }

  /** The supervisor's next step once the context is cancelled; a dial then fails. */
  function ExitStep(at: Point): Action {
    match at
    case Installed(_) => Announce
    case Reading => ReadDone
    case Dialing(_) => DialFail
    case Woken(_) => CheckContext
    case _ => StopSupervising
  }

  /** A cancelled context ends the supervisor, wherever it is, by its own steps and without a new connection. */
  lemma {:induction false} CancelledSupervisorExits(s: State) returns (acts: seq<Action>, t: State)
    requires Inv(s) && s.started && !s.live && s.sup.at != Unstarted
    ensures Run(s, acts, t) && (t.sup.at == Exited || t.sup.at == Failed)
    ensures t.link == s.link && Install !in acts
    decreases ToExit(s.sup.at)
  {
    if s.sup.at == Exited || s.sup.at == Failed {
      acts, t := [], s;
    } else {
      var a := ExitStep(s.sup.at);
      StepKeeps(s, a);
      var rest;
      rest, t := CancelledSupervisorExits(Apply(s, a));
      acts := [a] + rest;
      assert acts[1..] == rest;
    }
  }

  /** And cancelling the parent context cancels it. */
  lemma CancelEndsSupervision(s: State) returns (acts: seq<Action>, t: State)
    requires Reachable(s) && s.sup.at != Unstarted
    ensures Run(s, [ParentCancel] + acts, t) && (t.sup.at == Exited || t.sup.at == Failed)
    ensures t.link == s.link && Install !in acts
  {
    ReachableInv(s);
    StepKeeps(s, ParentCancel);
    acts, t := CancelledSupervisorExits(Apply(s, ParentCancel));
    assert ([ParentCancel] + acts)[1..] == acts;
  }
}
