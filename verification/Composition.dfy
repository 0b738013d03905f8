/** The outbox and the connection generations as one machine: the log workers look at the manager's own
    connection fields, the supervisor's connectOnce raises their signal, and a failed log write calls
    handleDisconnect like any other report. */
module Composition {
  import G = Generations
  import GenerationsRuns
  import O = Outbox
  import OutboxRuns

  /** isConnected(). */
  predicate Up(l: G.Link) {
    l.connected && l.conn.Some?
  }

  datatype State = State(g: G.State, signal: bool, stalled: bool, intake: O.Intake, delivery: O.Delivery)

  datatype Action =
    | Link(link: G.Action)
    | Log(log: O.Action)
    | Drop(r: nat)       // a log write failed: its handleDisconnect takes the lock
    | Restart

  const INITIAL := State(G.INITIAL, false, false, O.INITIAL.intake, O.INITIAL.delivery)

  /** Steps of the log side that leave the connection alone. Connect's own signal comes some time after the
      first connectOnce. */
  predicate LogAction(g: G.State, a: O.Action) {
    && !a.Connect? && !a.Announce? && !a.Disconnect? && !a.Cancel? && !a.SyncDrop? && !a.Restart?
    && (a.Nudge? ==> g.link.gens != [])
  }

  /** connectOnce calls that have installed their connection but not signalled yet. */
  function Owed(at: G.Point): nat {
    if at.Installed? then 1 else 0
  }

  /** What the outbox sees of the whole. */
  function View(s: State): O.State {
    O.State(s.g.live || !s.g.started, Up(s.g.link), Owed(s.g.sup.at), s.signal, s.stalled, s.intake, s.delivery)
  }

  ghost predicate Enabled(s: State, a: Action) {
    match a
    case Link(b) => G.Enabled(s.g, b)
    case Log(b) => LogAction(s.g, b) && O.Enabled(View(s), b)
    case Drop(r) => O.Enabled(View(s), O.SyncDrop) && G.Enabled(s.g, G.ReportBegin(r))
    case Restart => true
  }

  ghost function Apply(encodable: O.Encodable, s: State, a: Action): State
    requires Enabled(s, a)
  {
    match a
    case Link(b) => s.(g := G.Apply(s.g, b), signal := s.signal || b.Announce?)
    case Log(b) =>
      var o := O.Apply(encodable, View(s), b);
      State(s.g, o.signal, o.stalled, o.intake, o.delivery)
    case Drop(r) =>
      State(G.Apply(s.g, G.ReportBegin(r)), s.signal, s.stalled, s.intake,
            s.delivery.(sync := O.SAbandoning(s.delivery.sync.ids)))
    case Restart => State(G.INITIAL, false, false, O.RestartIntake(s.intake), O.RestartDelivery(s.delivery))
  }

  ghost predicate Run(encodable: O.Encodable, s: State, acts: seq<Action>, t: State)
    decreases |acts|
  {
    if acts == [] then s == t
    else Enabled(s, acts[0]) && Run(encodable, Apply(encodable, s, acts[0]), acts[1..], t)
  }

  ghost predicate Reachable(encodable: O.Encodable, t: State) {
    exists acts :: Run(encodable, INITIAL, acts, t)
  }

  // ---------------------------------------------------------------------------------------------
  // Every run is a run of the outbox
  // ---------------------------------------------------------------------------------------------

  /** The outbox's steps for one step of the whole. */
  function Shadow(s: State, a: Action): seq<O.Action>
    requires a.Link? ==> G.Enabled(s.g, a.link)
  {
    match a
    case Log(b) => [b]
    case Drop(_) => [O.SyncDrop]
    case Restart => [O.Restart]
    case Link(b) =>
      if b.Install? then [O.Connect]
      else if b.Announce? then [O.Announce]
      else if b.ReportBegin? then [O.Disconnect]
      else if s.g.live && !G.Apply(s.g, b).live then [O.Cancel]
      else []
  }

  /** The step of the whole is the outbox's own step, seen from there. */
  lemma ShadowStep(encodable: O.Encodable, s: State, a: Action)
    requires GenerationsRuns.Inv(s.g) && Enabled(s, a)
    ensures O.Run(encodable, View(s), Shadow(s, a), View(Apply(encodable, s, a)))
    ensures GenerationsRuns.Inv(Apply(encodable, s, a).g)
  {
    match a
    case Link(b) =>
      GenerationsRuns.StepKeeps(s.g, b);
      LinkShadow(encodable, s, b);
    case Log(b) => LogShadow(encodable, s, b);
    case Drop(r) =>
      GenerationsRuns.StepKeeps(s.g, G.ReportBegin(r));
      DropShadow(encodable, s, r);
    case Restart =>
      GenerationsRuns.InitialInv();
      OneStep(encodable, View(s), O.Restart);
  }

  lemma OneStep(encodable: O.Encodable, o: O.State, b: O.Action)
    requires O.Enabled(o, b)
    ensures O.Run(encodable, o, [b], O.Apply(encodable, o, b))
  {
    assert [b][1..] == [] && O.Run(encodable, O.Apply(encodable, o, b), [], O.Apply(encodable, o, b));
  }

  lemma LinkShadow(encodable: O.Encodable, s: State, b: G.Action)
    requires GenerationsRuns.Inv(s.g) && G.Enabled(s.g, b)
    ensures O.Run(encodable, View(s), Shadow(s, Link(b)), View(Apply(encodable, s, Link(b))))
  {
    if b.Install? || b.Announce? || b.ReportBegin? {
      ConnectShadow(encodable, s, b);
    } else if s.g.live && !G.Apply(s.g, b).live {
      CancelShadow(encodable, s, b);
    } else {
      QuietLink(s.g, b);
    }
  }

  lemma ConnectShadow(encodable: O.Encodable, s: State, b: G.Action)
    requires GenerationsRuns.FieldsInv(s.g.link) && G.Enabled(s.g, b) && (b.Install? || b.Announce? || b.ReportBegin?)
    ensures O.Run(encodable, View(s), Shadow(s, Link(b)), View(Apply(encodable, s, Link(b))))
  {
    var step := Shadow(s, Link(b))[0];
    OneStep(encodable, View(s), step);
    assert View(Apply(encodable, s, Link(b))) == O.Apply(encodable, View(s), step);
  }

  lemma CancelShadow(encodable: O.Encodable, s: State, b: G.Action)
    requires GenerationsRuns.Inv(s.g) && G.Enabled(s.g, b) && !b.Install? && !b.Announce? && !b.ReportBegin?
    requires s.g.live && !G.Apply(s.g, b).live
    ensures O.Run(encodable, View(s), [O.Cancel], View(Apply(encodable, s, Link(b))))
  {
    OneStep(encodable, View(s), O.Cancel);
    CancelKeepsLink(s.g, b);
  }

  lemma CancelKeepsLink(g: G.State, b: G.Action)
    requires GenerationsRuns.Inv(g) && G.Enabled(g, b) && g.live && !G.Apply(g, b).live
    ensures var g' := G.Apply(g, b); g'.link == g.link && g'.started && Owed(g'.sup.at) == Owed(g.sup.at)
  {
  }

  lemma QuietLink(g: G.State, b: G.Action)
    requires GenerationsRuns.Inv(g) && G.Enabled(g, b)
    requires !b.Install? && !b.Announce? && !b.ReportBegin? && !(g.live && !G.Apply(g, b).live)
    ensures var g' := G.Apply(g, b);
            && Up(g'.link) == Up(g.link) && Owed(g'.sup.at) == Owed(g.sup.at)
            && (g'.live || !g'.started) == (g.live || !g.started)
  {
  }

  lemma LogShadow(encodable: O.Encodable, s: State, b: O.Action)
    requires Enabled(s, Log(b))
    ensures O.Run(encodable, View(s), [b], View(Apply(encodable, s, Log(b))))
  {
    OneStep(encodable, View(s), b);
    KeepsConnection(encodable, View(s), s.g, b);
  }

  lemma KeepsConnection(encodable: O.Encodable, o: O.State, g: G.State, b: O.Action)
    requires LogAction(g, b) && O.Enabled(o, b)
    ensures SameConnection(o, O.Apply(encodable, o, b))
  {
    if OutboxRuns.SyncAction(b) {
      SyncKeepsConnection(encodable, o, b);
    }
  }

  predicate SameConnection(o: O.State, o': O.State) {
    o'.live == o.live && o'.connected == o.connected && o'.owed == o.owed
  }

  lemma SyncKeepsConnection(encodable: O.Encodable, o: O.State, b: O.Action)
    requires OutboxRuns.SyncAction(b) && !b.SyncDrop? && O.Enabled(o, b)
    ensures SameConnection(o, O.Apply(encodable, o, b))
  {
  }

  lemma DropShadow(encodable: O.Encodable, s: State, r: nat)
    requires GenerationsRuns.Inv(s.g) && Enabled(s, Drop(r))
    ensures O.Run(encodable, View(s), [O.SyncDrop], View(Apply(encodable, s, Drop(r))))
  {
    OneStep(encodable, View(s), O.SyncDrop);
  }

  lemma {:induction false} RunRefines(encodable: O.Encodable, s: State, acts: seq<Action>, t: State)
    returns (steps: seq<O.Action>)
    requires GenerationsRuns.Inv(s.g) && Run(encodable, s, acts, t)
    ensures O.Run(encodable, View(s), steps, View(t)) && GenerationsRuns.Inv(t.g)
    decreases |acts|
  {
    if acts == [] {
      steps := [];
    } else {
      var mid := Apply(encodable, s, acts[0]);
      ShadowStep(encodable, s, acts[0]);
      var rest := RunRefines(encodable, mid, acts[1..], t);
      OutboxRuns.RunsJoin(encodable, View(s), Shadow(s, acts[0]), View(mid), rest, View(t));
      steps := Shadow(s, acts[0]) + rest;
    }
  }

  /** In every reachable state of the whole, what the outbox sees is a reachable state of the outbox, and
      the generations are in order: all theorems about either hold. */
  lemma RefinesOutbox(encodable: O.Encodable, s: State)
    requires Reachable(encodable, s)
    ensures OutboxRuns.Reachable(encodable, View(s)) && GenerationsRuns.Inv(s.g)
  {
    var acts :| Run(encodable, INITIAL, acts, s);
    GenerationsRuns.InitialInv();
    var steps := RunRefines(encodable, INITIAL, acts, s);
    assert View(INITIAL) == O.INITIAL;
  }

  // ---------------------------------------------------------------------------------------------
  // The promises, over the manager's own connection
  // ---------------------------------------------------------------------------------------------

  /** A signal is there, or one goroutine is between its update and its signal. */
  predicate WakeupPending(s: State) {
    s.signal || s.g.sup.at.Installed? || s.intake.persist == O.PSignalling
  }

  /** The supervisor is on its way to the next connect, or will be as soon as the report in flight that
      has captured the done channel it waits on closes it. */
  ghost predicate WillReconnect(g: G.State) {
    match g.sup.at
    case Dialing(_) => true
    case BackingOff => true
    case Woken(_) => true
    case Reading => g.link.connDone.Some? && Closes(g, g.link.connDone.value)
    case WaitingOn(gen) => Closes(g, gen)
    case _ => false
  }

  ghost predicate Closes(g: G.State, gen: nat) {
    G.IsClosed(g.link, gen) || GenerationsRuns.Promised(g, gen)
  }

  /** No lost wake-up, whatever connections and log workers do to each other: with a live context and no
      store error to recover from, a row that came through the log queue and waits to be synced is
      going to be seen to. While there is a connection, a signal is on its way or the pass in progress
      will look at the row; while there is none, the same, or the supervisor is going to bring one,
      whose connectOnce signals. */
  lemma NoRowIsForgotten(encodable: O.Encodable, s: State, id: nat)
    requires Reachable(encodable, s) && s.g.started && s.g.live && !s.stalled && OutboxRuns.Waiting(View(s), id)
    ensures Up(s.g.link) ==> WakeupPending(s) || OutboxRuns.PassWillSee(s.delivery.sync, id)
    ensures !Up(s.g.link) ==> WakeupPending(s) || WillReconnect(s.g)
  {
    RefinesOutbox(encodable, s);
    if Up(s.g.link) {
      OutboxRuns.NoLostWakeup(encodable, View(s), id);
    } else {
      ReconnectsOrSignals(s.g);
    }
  }

  lemma ReconnectsOrSignals(g: G.State)
    requires GenerationsRuns.Inv(g) && g.started && g.live && !Up(g.link)
    ensures WillReconnect(g) || g.sup.at.Installed?
  {
    var n := |g.link.gens|;
    assert !g.link.connected;
    if n > 0 && g.link.gens[n - 1].onceFired {
      assert G.IsClosed(g.link, n - 1);
    }
  }

  // ---- building runs ----

  lemma OneStepRun(encodable: O.Encodable, s: State, a: Action)
    requires Enabled(s, a)
    ensures Run(encodable, s, [a], Apply(encodable, s, a))
  {
    assert [a][1..] == [] && Run(encodable, Apply(encodable, s, a), [], Apply(encodable, s, a));
  }

  lemma RunPrepends(encodable: O.Encodable, s: State, a: Action, rest: seq<Action>, t: State)
    requires Enabled(s, a) && Run(encodable, Apply(encodable, s, a), rest, t)
    ensures Run(encodable, s, [a] + rest, t)
  {
    assert ([a] + rest)[1..] == rest;
  }
}
