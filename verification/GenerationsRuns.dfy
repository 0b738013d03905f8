/** Theorems about every run of the connection generations. */
module GenerationsRuns {
  import opened Prelude
  import opened Generations

  /** Older generations are over; the current one's done channel is closed only when its socket is, or
      when the context is gone. */
  ghost predicate GensInv(l: Link, live: bool) {
    && (forall g :: 0 <= g < |l.gens| ==> l.gens[g].doneCloses == if l.gens[g].onceFired then 1 else 0)
    && (forall g :: 0 <= g < |l.gens| - 1 ==> !l.gens[g].open && l.gens[g].onceFired)
    && (l.gens != [] && l.gens[|l.gens| - 1].onceFired ==> !l.gens[|l.gens| - 1].open || !live)
  }

  /** The fields name the current generation or nothing. */
  ghost predicate FieldsInv(l: Link) {
    var current := if l.gens == [] then None else Some(|l.gens| - 1);
    && l.connDone == l.connDoneOnce == current
    && l.conn == l.connCancel == (if l.connected then current else None)
    && (l.connected ==> l.gens != [])
  }

  ghost predicate SupInv(l: Link, at: Point) {
    var n := |l.gens|;
    match at
    case Unstarted => n == 0
    case Dialing(first) => if first then n == 0 else n > 0 && !l.gens[n - 1].open && l.gens[n - 1].onceFired
    case BackingOff => n > 0 && !l.gens[n - 1].open && l.gens[n - 1].onceFired
    case Installed(_) => n > 0
    case Reading => n > 0
    case WaitingOn(g) => n > 0 && g == n - 1
    case Woken(g) => n > 0 && g == n - 1 && l.gens[g].onceFired
    case Exited => n > 0
    case Failed => n == 0
  }

  /** A call in flight holds the parts of one generation. */
  ghost predicate ReportInv(l: Link, r: Report) {
    && r.held.conn.Some? && r.held.conn.value < |l.gens| - (if l.connected then 1 else 0)
    && r.held.done == r.held.once == r.held.cancel == r.held.conn
    && (r.phase != AtCancel ==> l.gens[r.held.conn.value].cancelled)
    && (r.phase == AtDone ==> !l.gens[r.held.conn.value].open)
  }

  ghost predicate ReportsInv(s: State) {
    forall r :: r in s.reports ==> ReportInv(s.link, s.reports[r])
  }

  ghost predicate Promises(s: State, r: nat, gen: nat) {
    r in s.reports && s.reports[r].held.done == Some(gen)
  }

  ghost predicate Promised(s: State, gen: nat) {
    exists r :: Promises(s, r, gen)
  }

  ghost predicate BeingClosed(s: State, gen: nat) {
    exists r :: WillClose(s, r, gen)
  }

  ghost predicate WillClose(s: State, r: nat, gen: nat) {
    r in s.reports && s.reports[r].held.conn == Some(gen) && s.reports[r].phase != AtDone
  }

  /** A disconnect that has been noticed is going to close the done channel. */
  ghost predicate PromiseInv(s: State) {
    var n := |s.link.gens|;
    !s.link.connected && n > 0 && !s.link.gens[n - 1].onceFired ==>
      Promised(s, n - 1)
  }

  ghost predicate CloserInv(s: State) {
    match s.closer
    case NotClosed => true
    case Closing(phase, hasCancel, held, gensThen) =>
      && held.done == held.once == (if gensThen == 0 then None else Some(gensThen - 1))
      && (held.conn.Some? ==> gensThen > 0 && held.conn.value == gensThen - 1)
      && gensThen <= |s.link.gens|
      && (gensThen > 0 ==> hasCancel) && (hasCancel ==> s.started)
      && (phase != AtCancel && hasCancel ==> !s.live)
      && (phase == AtDone && held.conn.Some? ==> !s.link.gens[held.conn.value].open)
      && (s.link.connected && gensThen == |s.link.gens| ==> held.conn == Some(gensThen - 1))
    case Closed(gensThen) =>
      && gensThen <= |s.link.gens|
      && (s.link.connected && gensThen == |s.link.gens| > 0 ==> !s.link.gens[gensThen - 1].open)
  }

  /** An open socket is the manager's current one or is held by a call that will close it; and the
      current one is open unless Close got to it. */
  ghost predicate OpenInv(s: State) {
    var n := |s.link.gens|;
    && (n > 0 && s.link.gens[n - 1].open ==>
          s.link.connected || BeingClosed(s, n - 1))
    && (s.link.connected && n > 0 && !s.link.gens[n - 1].open ==> s.closer != NotClosed && s.closer.gensThen == n)
  }

  ghost predicate BackoffInv(p: Supervisor) {
    && p.backoff == Delay(p.failures)
    && match p.at
       case BackingOff => p.waits == Delays(p.failures)
       case Dialing(first) => if first then p.failures == 0 && p.waits == [] else p.waits == Delays(p.failures + 1)
       case Installed(first) => first ==> p.failures == 0 && p.waits == []
       case Exited => true
       case _ => p.failures == 0 && p.waits == []
  }

  ghost predicate Inv(s: State) {
    && (s.link.gens != [] ==> s.started)
    && (s.live || s.sup.at != Unstarted ==> s.started)
    && (s.live ==> s.sup.at != Unstarted && s.sup.at != Exited && s.sup.at != Failed)
    && FieldsInv(s.link)
    && GensInv(s.link, s.live)
    && SupInv(s.link, s.sup.at)
    && ReportsInv(s)
    && PromiseInv(s)
    && CloserInv(s)
    && OpenInv(s)
    && BackoffInv(s.sup)
  }

  lemma BackoffStep(s: State, a: Action)
    requires Enabled(s, a) && Inv(s)
    ensures BackoffInv(Apply(s, a).sup)
  {
  }

  lemma FieldsStep(s: State, a: Action)
    requires Enabled(s, a) && FieldsInv(s.link)
    ensures FieldsInv(Apply(s, a).link)
  {
  }

  lemma GensStep(s: State, a: Action)
    requires Enabled(s, a) && Inv(s)
    ensures GensInv(Apply(s, a).link, Apply(s, a).live)
  {
    if a.ReportDone? {
      CloseOnceKeeps(s.link, s.live, s.reports[a.r].held.done);
    } else if a.CloseDone? {
      CloseOnceKeeps(s.link, s.live, s.closer.held.done);
    } else {
      GensOtherStep(s, a);
    }
  }

  lemma GensOtherStep(s: State, a: Action)
    requires Enabled(s, a) && FieldsInv(s.link) && GensInv(s.link, s.live) && SupInv(s.link, s.sup.at)
    requires !a.ReportDone? && !a.CloseDone?
    ensures GensInv(Apply(s, a).link, Apply(s, a).live)
  {
  }

  lemma CloseOnceKeeps(l: Link, live: bool, done: Option<nat>)
    requires GensInv(l, live) && (done.Some? ==> done.value < |l.gens|)
    requires done.Some? && done.value == |l.gens| - 1 ==> !l.gens[done.value].open || !live
    ensures GensInv(CloseOnce(l, done, done), live)
  {
  }

  predicate ReportAction(a: Action) {
    a.ReportBegin? || a.ReportCancel? || a.ReportClose? || a.ReportDone?
  }

  lemma SupStep(s: State, a: Action)
    requires Enabled(s, a) && Inv(s)
    ensures SupInv(Apply(s, a).link, Apply(s, a).sup.at)
  {
    if ReportAction(a) {
      SupStaysInReport(s, a);
    } else if CloseAction(a) {
      SupStaysInClose(s, a);
    } else {
      SupMoves(s, a);
    }
  }

  lemma SupStaysInReport(s: State, a: Action)
    requires Enabled(s, a) && SupInv(s.link, s.sup.at) && ReportAction(a)
    ensures SupInv(Apply(s, a).link, Apply(s, a).sup.at)
  {
  }

  lemma SupStaysInClose(s: State, a: Action)
    requires Enabled(s, a) && SupInv(s.link, s.sup.at) && CloseAction(a)
    ensures SupInv(Apply(s, a).link, Apply(s, a).sup.at)
  {
  }

  lemma SupMoves(s: State, a: Action)
    requires Enabled(s, a) && SupInv(s.link, s.sup.at) && FieldsInv(s.link) && GensInv(s.link, s.live)
    requires !ReportAction(a) && !CloseAction(a)
    ensures SupInv(Apply(s, a).link, Apply(s, a).sup.at)
  {
  }

  lemma ReportsStep(s: State, a: Action)
    requires Enabled(s, a) && Inv(s)
    ensures ReportsInv(Apply(s, a))
  {
    if ReportAction(a) {
      ReportsOwnStep(s, a);
    } else {
      ReportsOtherStep(s, a);
    }
  }

  lemma ReportsOwnStep(s: State, a: Action)
    requires Enabled(s, a) && FieldsInv(s.link) && ReportsInv(s) && ReportAction(a)
    ensures ReportsInv(Apply(s, a))
  {
  }

  lemma ReportsOtherStep(s: State, a: Action)
    requires Enabled(s, a) && FieldsInv(s.link) && ReportsInv(s) && !ReportAction(a)
    ensures ReportsInv(Apply(s, a))
  {
  }

  lemma PromiseStep(s: State, a: Action)
    requires Enabled(s, a) && Inv(s)
    ensures PromiseInv(Apply(s, a))
  {
    if ReportAction(a) {
      PromiseReportStep(s, a);
    } else {
      PromiseOtherStep(s, a);
    }
  }

  lemma PromiseReportStep(s: State, a: Action)
    requires Enabled(s, a) && FieldsInv(s.link) && ReportsInv(s) && PromiseInv(s) && ReportAction(a)
    ensures PromiseInv(Apply(s, a))
  {
    var s', n := Apply(s, a), |s.link.gens|;
    if a.ReportBegin? && s.link.connected {
      assert Promises(s', a.r, n - 1);
    } else if !s.link.connected && n > 0 && !s.link.gens[n - 1].onceFired {
      var r :| Promises(s, r, n - 1);
      assert a != ReportDone(r) ==> Promises(s', r, n - 1);
    }
  }

  lemma PromiseOtherStep(s: State, a: Action)
    requires Enabled(s, a) && FieldsInv(s.link) && PromiseInv(s) && !ReportAction(a)
    ensures PromiseInv(Apply(s, a))
  {
    var s', n := Apply(s, a), |s.link.gens|;
    if !s.link.connected && n > 0 && !s.link.gens[n - 1].onceFired {
      var r :| Promises(s, r, n - 1);
      assert Promises(s', r, n - 1);
    }
  }

  lemma CloserStep(s: State, a: Action)
    requires Enabled(s, a) && Inv(s)
    ensures CloserInv(Apply(s, a))
  {
    match a
    case CloseBegin | CloseCancel | CloseConn | CloseDone => CloserOwnStep(s, a);
    case _ => CloserOtherStep(s, a);
  }

  predicate CloseAction(a: Action) {
    a.CloseBegin? || a.CloseCancel? || a.CloseConn? || a.CloseDone?
  }

  lemma CloserOwnStep(s: State, a: Action)
    requires Enabled(s, a) && FieldsInv(s.link) && CloserInv(s) && CloseAction(a) && (s.link.gens != [] ==> s.started)
    ensures CloserInv(Apply(s, a))
  {
  }

  lemma CloserOtherStep(s: State, a: Action)
    requires Enabled(s, a) && FieldsInv(s.link) && CloserInv(s) && !CloseAction(a)
    ensures CloserInv(Apply(s, a))
  {
  }

  lemma OpenStep(s: State, a: Action)
    requires Enabled(s, a) && Inv(s)
    ensures OpenInv(Apply(s, a))
  {
    if ReportAction(a) {
      OpenReportStep(s, a);
    } else {
      OpenOtherStep(s, a);
    }
  }

  lemma OpenReportStep(s: State, a: Action)
    requires ReportAction(a) && Enabled(s, a) && FieldsInv(s.link) && ReportsInv(s) && OpenInv(s)
    ensures OpenInv(Apply(s, a))
  {
    var s', n := Apply(s, a), |s.link.gens|;
    if a.ReportBegin? && s.link.connected {
      assert WillClose(s', a.r, n - 1);
    } else if !s.link.connected && n > 0 && s.link.gens[n - 1].open {
      var r :| WillClose(s, r, n - 1);
      assert a != ReportClose(r) ==> WillClose(s', r, n - 1);
    }
  }

  lemma OpenOtherStep(s: State, a: Action)
    requires !ReportAction(a) && Enabled(s, a) && FieldsInv(s.link) && CloserInv(s) && OpenInv(s)
    ensures OpenInv(Apply(s, a))
  {
    var s', n := Apply(s, a), |s.link.gens|;
    if !s.link.connected && n > 0 && s.link.gens[n - 1].open {
      var r :| WillClose(s, r, n - 1);
      assert WillClose(s', r, n - 1);
    }
  }

  lemma StepKeeps(s: State, a: Action)
    requires Enabled(s, a) && Inv(s)
    ensures Inv(Apply(s, a))
  {
    FieldsStep(s, a);
    GensStep(s, a);
    SupStep(s, a);
    ReportsStep(s, a);
    PromiseStep(s, a);
    CloserStep(s, a);
    OpenStep(s, a);
    BackoffStep(s, a);
  }

  lemma {:induction false} RunKeeps(s: State, acts: seq<Action>, t: State)
    requires Inv(s) && Run(s, acts, t)
    ensures Inv(t)
    decreases |acts|
  {
    if acts != [] {
      StepKeeps(s, acts[0]);
      RunKeeps(Apply(s, acts[0]), acts[1..], t);
    }
  }

  lemma InitialInv()
    ensures Inv(INITIAL)
  {
  }

  lemma ReachableInv(t: State)
    requires Reachable(t)
    ensures Inv(t)
  {
    var acts :| Run(INITIAL, acts, t);
    InitialInv();
    RunKeeps(INITIAL, acts, t);
  }

  // ---------------------------------------------------------------------------------------------
  // The promises
  // ---------------------------------------------------------------------------------------------

  /** At most one installed connection is open in any reachable state, and it is the newest. */
  lemma SingleOpenGeneration(s: State, g: nat)
    requires Reachable(s) && g < |s.link.gens| && s.link.gens[g].open
    ensures g == |s.link.gens| - 1
  {
    ReachableInv(s);
  }

  /** A new generation is installed only when every earlier one has its socket closed and its done
      channel closed, exactly once. */
  lemma InstallFindsAllClosed(s: State, g: nat)
    requires Reachable(s) && Enabled(s, Install) && g < |s.link.gens|
    ensures !s.link.gens[g].open && s.link.gens[g].doneCloses == 1
  {
    ReachableInv(s);
  }

  /** No done channel is ever closed twice. */
  lemma DoneClosedAtMostOnce(s: State, g: nat)
    requires Reachable(s) && g < |s.link.gens|
    ensures s.link.gens[g].doneCloses <= 1
  {
    ReachableInv(s);
  }

  /** No lost disconnect: a waiting supervisor waits on the current generation, and once the
      connection is gone that generation's done channel is closed or some handleDisconnect in flight
      has captured it. */
  lemma NoLostDisconnect(s: State)
    requires Reachable(s) && s.sup.at.WaitingOn?
    ensures s.sup.at.gen == |s.link.gens| - 1
    ensures !s.link.connected ==> IsClosed(s.link, s.sup.at.gen) || Promised(s, s.sup.at.gen)
  {
    ReachableInv(s);
  }

  /** The steps a handleDisconnect call still has to take. */
  function Remaining(r: nat, phase: Phase): seq<Action> {
    match phase
    case AtCancel => [ReportCancel(r), ReportClose(r), ReportDone(r)]
    case AtClose => [ReportClose(r), ReportDone(r)]
    case AtDone => [ReportDone(r)]
  }

  /** A handleDisconnect that has captured a done channel closes it by its own remaining steps, each of
      them possible when its turn comes. */
  lemma {:induction false} PromiseIsKept(s: State, r: nat, gen: nat) returns (t: State)
    requires Inv(s) && Promises(s, r, gen)
    ensures Run(s, Remaining(r, s.reports[r].phase), t) && IsClosed(t.link, gen)
    ensures t.sup == s.sup && t.live == s.live && t.started == s.started && t.link.connected == s.link.connected
    decreases match s.reports[r].phase case AtCancel => 2 case AtClose => 1 case AtDone => 0
  {
    var own := Remaining(r, s.reports[r].phase)[0];
    var u := Apply(s, own);
    if s.reports[r].phase == AtDone {
      t := u;
      assert Run(u, [], t);
    } else {
      StepKeeps(s, own);
      t := PromiseIsKept(u, r, gen);
      assert Remaining(r, s.reports[r].phase)[1..] == Remaining(r, u.reports[r].phase);
    }
  }

  /** Until the call closes the channel, nobody else's step takes the capture away or moves the call. */
  lemma PromiseStands(s: State, r: nat, gen: nat, a: Action)
    requires Promises(s, r, gen) && Enabled(s, a) && a !in {ReportCancel(r), ReportClose(r), ReportDone(r)}
    ensures Promises(Apply(s, a), r, gen) && Apply(s, a).reports[r] == s.reports[r]
  {
  }

  lemma {:induction false} RunExtends(s: State, acts: seq<Action>, t: State, a: Action)
    requires Run(s, acts, t) && Enabled(t, a)
    ensures Run(s, acts + [a], Apply(t, a))
    decreases |acts|
  {
    if acts == [] {
      assert Run(Apply(t, a), [], Apply(t, a));
    } else {
      RunExtends(Apply(s, acts[0]), acts[1..], t, a);
      assert (acts + [a])[1..] == acts[1..] + [a];
    }
  }

  /** What Close leaves open. When it has returned and no handleDisconnect is in flight, an installed
      connection is open exactly when one was installed after Close took the lock and is still
      current. */
  lemma OpenAfterClose(s: State)
    requires Reachable(s) && s.closer.Closed? && s.reports == map[]
    ensures (exists g :: 0 <= g < |s.link.gens| && s.link.gens[g].open) <==>
            (s.link.connected && |s.link.gens| > s.closer.gensThen)
  {
    ReachableInv(s);
    if s.link.connected && |s.link.gens| > s.closer.gensThen {
      assert s.link.gens[|s.link.gens| - 1].open;
    }
  }

  lemma Advance(s: State, a: Action) returns (t: State)
    requires Reachable(s) && Enabled(s, a)
    ensures Reachable(t) && t == Apply(s, a)
  {
    var acts :| Run(INITIAL, acts, s);
    RunExtends(INITIAL, acts, s, a);
    t := Apply(s, a);
  }

  /** A reachable state in which the supervisor is about to redial. */
  lemma RedialWitness() returns (s: State)
    ensures Reachable(s) && s.sup.at == Dialing(false) && s.reports == map[] && s.closer == NotClosed && s.started
    ensures !s.link.connected && |s.link.gens| == 1
  {
    assert Run(INITIAL, [], INITIAL);
    s := Advance(INITIAL, ConnectBegin);
    s := Advance(s, Install);
    s := Advance(s, Announce);
    s := Advance(s, ReadDone);
    s := Advance(s, ReportBegin(0));
    s := Advance(s, ReportCancel(0));
    s := Advance(s, ReportClose(0));
    s := Advance(s, ReportDone(0));
    s := Advance(s, Wake);
    s := Advance(s, CheckContext);
    s := Advance(s, TimerFires);
  }

  /** And that happens: Close arrives while a reconnect is authenticating. */
  lemma OpenAfterCloseWitness() returns (s: State)
    ensures Reachable(s) && s.closer.Closed? && s.reports == map[] && !s.live
    ensures s.link.connected && s.link.gens != [] && s.link.gens[|s.link.gens| - 1].open
  {
    s := RedialWitness();
    ReachableInv(s);
    s := Advance(s, CloseBegin);
    s := Advance(s, CloseCancel);
    s := Advance(s, CloseConn);
    s := Advance(s, CloseDone);
    s := Advance(s, Install);
  }

  // ---- backoff ----

  /** The delay before the next attempt is min(3 * 2^k, 60) seconds after k failed attempts of an
      outage, in every run. */
  lemma BackoffClosedForm(s: State)
    requires Reachable(s) && s.sup.at == BackingOff
    ensures s.sup.backoff == if 3 * Pow2(s.sup.failures) < 60 then 3 * Pow2(s.sup.failures) else 60
    ensures s.sup.waits == Delays(s.sup.failures)
  {
    ReachableInv(s);
    DelayClosedForm(s.sup.failures);
  }

  lemma {:induction false} DelayClosedForm(k: nat)
    ensures Delay(k) == if 3 * Pow2(k) < 60 then 3 * Pow2(k) else 60
  {
    if k > 0 {
      DelayClosedForm(k - 1);
    }
  }

  /** Total waiting over the first n attempts of an outage. */
  lemma {:induction false} TotalWaiting(n: nat)
    ensures Sum(Delays(n)) == if n <= 5 then 3 * (Pow2(n) - 1) else 93 + 60 * (n - 5)
  {
    if n > 0 {
      TotalWaiting(n - 1);
      DelayClosedForm(n - 1);
      assert Delays(n)[..n - 1] == Delays(n - 1);
      PowersUpTo5();
      if n > 5 {
        PowMonotone(5, n - 1);
      } else {
        PowMonotone(n - 1, 4);
      }
    }
  }

  lemma PowersUpTo5()
    ensures Pow2(0) == 1 && Pow2(1) == 2 && Pow2(2) == 4 && Pow2(3) == 8 && Pow2(4) == 16 && Pow2(5) == 32
  {
  }

  lemma {:induction false} PowMonotone(a: nat, b: nat)
    requires a <= b
    ensures Pow2(a) <= Pow2(b)
  {
    if a < b {
      PowMonotone(a, b - 1);
    }
  }
}
