/** Connection generations of internal/connection/manager.go as a state machine: Connect, the
    supervisor, any number of racing handleDisconnect calls and Close, one atomic step at a time.

    A generation is one successful connectOnce: its socket, its cancel function, its done channel and
    the sync.Once that guards it, all named by the generation's number. handleDisconnect names no
    connection, so whoever calls it takes down whatever is current. */
module Generations {
  import opened Prelude

  const DEFAULT_BACKOFF := 3
  const MAX_BACKOFF := 60

  datatype Gen = Gen(open: bool, cancelled: bool, onceFired: bool, doneCloses: nat)

  /** The manager's connection fields, and all generations so far. */
  datatype Link = Link(
    connected: bool,
    conn: Option<nat>,
    connCancel: Option<nat>,
    connDone: Option<nat>,
    connDoneOnce: Option<nat>,
    gens: seq<Gen>
  )

  /** What handleDisconnect or Close captured under the lock. */
  datatype Capture = Capture(cancel: Option<nat>, conn: Option<nat>, done: Option<nat>, once: Option<nat>)

  datatype Phase = AtCancel | AtClose | AtDone

  datatype Report = Report(phase: Phase, held: Capture)

  /** Close, which takes effect once. hasCancel: a context existed; gensThen: generations at capture. */
  datatype Closer =
    | NotClosed
    | Closing(phase: Phase, hasCancel: bool, held: Capture, gensThen: nat)
    | Closed(gensThen: nat)

  /** Where the goroutine is that runs Connect and then superviseReconnects. */
  datatype Point =
    | Unstarted
    | Dialing(first: bool)     // connectOnce up to the lock: dial and authenticate
    | Installed(first: bool)   // connection installed, signal still to come
    | Reading                  // about to read currentConnDone
    | WaitingOn(gen: nat)
    | Woken(gen: nat)          // done channel closed, context still to be checked
    | BackingOff
    | Exited
    | Failed                   // the first connectOnce failed

  /** failures counts failed reconnects since the last success, waits lists the delays slept since then. */
  datatype Supervisor = Supervisor(at: Point, backoff: nat, failures: nat, waits: seq<nat>)

  datatype State = State(
    started: bool,             // m.ctx != nil
    live: bool,                // and not cancelled
    link: Link,
    sup: Supervisor,
    reports: map<nat, Report>, // handleDisconnect calls in flight that found a connection
    closer: Closer
  )

  const INITIAL := State(false, false, Link(false, None, None, None, None, []),
                         Supervisor(Unstarted, DEFAULT_BACKOFF, 0, []), map[], NotClosed)

  datatype Action =
    | ConnectBegin
    | DialFail
    | Install
    | Announce
    | ReadDone
    | Wake
    | CheckContext
    | TimerFires
    | StopSupervising
    | ReportBegin(r: nat)
    | ReportCancel(r: nat)
    | ReportClose(r: nat)
    | ReportDone(r: nat)
    | CloseBegin
    | CloseCancel
    | CloseConn
    | CloseDone
    | ParentCancel

  // ---- the connection fields ----

  function NewGen(): Gen {
    Gen(true, false, false, 0)
  }

  function InstallGen(l: Link): Link {
    var g := |l.gens|;
    Link(true, Some(g), Some(g), Some(g), Some(g), l.gens + [NewGen()])
  }

  function Captured(l: Link): Capture {
    Capture(l.connCancel, l.conn, l.connDone, l.connDoneOnce)
  }

  function Detached(l: Link): Link {
    l.(connected := false, conn := None, connCancel := None)
  }

  function CancelGen(l: Link, g: Option<nat>): Link {
    if g.Some? && g.value < |l.gens| then l.(gens := l.gens[g.value := l.gens[g.value].(cancelled := true)]) else l
  }

  function CloseGen(l: Link, g: Option<nat>): Link {
    if g.Some? && g.value < |l.gens| then l.(gens := l.gens[g.value := l.gens[g.value].(open := false)]) else l
  }

  function CloseChannel(l: Link, g: nat): Link {
    if g < |l.gens| then l.(gens := l.gens[g := l.gens[g].(doneCloses := l.gens[g].doneCloses + 1)]) else l
  }

  /** once.Do(func() { close(done) }) */
  function CloseOnce(l: Link, once: Option<nat>, done: Option<nat>): Link {
    if once.Some? && done.Some? && once.value < |l.gens| && !l.gens[once.value].onceFired then
      CloseChannel(l.(gens := l.gens[once.value := l.gens[once.value].(onceFired := true)]), done.value)
    else l
  }

  // ---- the supervisor ----

  function Doubled(backoff: nat): nat {
    if 2 * backoff > MAX_BACKOFF then MAX_BACKOFF else 2 * backoff
  }

  function DialFailed(p: Supervisor): Supervisor {
    p.(at := BackingOff, backoff := Doubled(p.backoff), failures := p.failures + 1)
  }

  function Reconnected(p: Supervisor): Supervisor {
    Supervisor(Reading, DEFAULT_BACKOFF, 0, [])
  }

  function Slept(p: Supervisor): Supervisor {
    p.(at := Dialing(false), waits := p.waits + [p.backoff])
  }

  // ---- the machine ----

  predicate IsClosed(l: Link, g: nat) {
    g < |l.gens| && l.gens[g].doneCloses > 0
  }

  predicate Enabled(s: State, a: Action) {
    var at := s.sup.at;
    match a
    case ConnectBegin => at == Unstarted && !s.started
    case DialFail => at.Dialing?
    case Install => at.Dialing?
    case Announce => at.Installed?
    case ReadDone => at == Reading
    case Wake => at.WaitingOn? && IsClosed(s.link, at.gen)
    case CheckContext => at.Woken?
    case TimerFires => at == BackingOff
    case StopSupervising => (at.WaitingOn? || at == BackingOff) && !s.live
    case ReportBegin(r) => r !in s.reports
    case ReportCancel(r) => r in s.reports && s.reports[r].phase == AtCancel
    case ReportClose(r) => r in s.reports && s.reports[r].phase == AtClose
    case ReportDone(r) => r in s.reports && s.reports[r].phase == AtDone
    case CloseBegin => s.closer == NotClosed
    case CloseCancel => s.closer.Closing? && s.closer.phase == AtCancel
    case CloseConn => s.closer.Closing? && s.closer.phase == AtClose
    case CloseDone => s.closer.Closing? && s.closer.phase == AtDone
    case ParentCancel => s.started
  }

  function WithPoint(s: State, at: Point): State {
    s.(sup := s.sup.(at := at))
  }

  function Apply(s: State, a: Action): State
    requires Enabled(s, a)
  {
    match a
    case ConnectBegin => WithPoint(s, Dialing(true)).(started := true, live := true)
    case DialFail =>
      if s.sup.at.first then WithPoint(s, Failed).(live := false) else s.(sup := DialFailed(s.sup))
    case Install => WithPoint(s, Installed(s.sup.at.first)).(link := InstallGen(s.link))
    case Announce =>
      if s.sup.at.first then WithPoint(s, Reading) else s.(sup := Reconnected(s.sup))
    case ReadDone =>
      WithPoint(s, if s.link.connDone.None? then Exited else WaitingOn(s.link.connDone.value))
    case Wake => WithPoint(s, Woken(s.sup.at.gen))
    case CheckContext => WithPoint(s, if s.live then BackingOff else Exited)
    case TimerFires => s.(sup := Slept(s.sup))
    case StopSupervising => WithPoint(s, Exited)
    case ReportBegin(r) =>
      if s.link.connected
      then s.(reports := s.reports[r := Report(AtCancel, Captured(s.link))], link := Detached(s.link))
      else s.(link := Detached(s.link))
    case ReportCancel(r) =>
      s.(reports := s.reports[r := s.reports[r].(phase := AtClose)],
         link := CancelGen(s.link, s.reports[r].held.cancel))
    case ReportClose(r) =>
      s.(reports := s.reports[r := s.reports[r].(phase := AtDone)], link := CloseGen(s.link, s.reports[r].held.conn))
    case ReportDone(r) =>
      s.(reports := s.reports - {r}, link := CloseOnce(s.link, s.reports[r].held.once, s.reports[r].held.done))
    case CloseBegin =>
      s.(closer := Closing(AtCancel, s.started, Captured(s.link), |s.link.gens|))
    case CloseCancel =>
      s.(closer := s.closer.(phase := AtClose), live := s.live && !s.closer.hasCancel)
    case CloseConn =>
      s.(closer := s.closer.(phase := AtDone), link := CloseGen(s.link, s.closer.held.conn))
    case CloseDone =>
      s.(closer := Closed(s.closer.gensThen), link := CloseOnce(s.link, s.closer.held.once, s.closer.held.done))
    case ParentCancel => s.(live := false)
  }

  ghost predicate Run(s: State, acts: seq<Action>, t: State)
    decreases |acts|
  {
    if acts == [] then s == t
    else Enabled(s, acts[0]) && Run(Apply(s, acts[0]), acts[1..], t)
  }

  ghost predicate Reachable(t: State) {
    exists acts :: Run(INITIAL, acts, t)
  }

  // ---- backoff arithmetic ----

  function Pow2(n: nat): nat {
    if n == 0 then 1 else 2 * Pow2(n - 1)
  }

  /** The delay before attempt k + 1 of an outage, that is after k failed ones. */
  function Delay(k: nat): nat {
    if k == 0 then DEFAULT_BACKOFF else Doubled(Delay(k - 1))
  }

  function Delays(n: nat): (r: seq<nat>)
    ensures |r| == n
  {
    if n == 0 then [] else Delays(n - 1) + [Delay(n - 1)]
  }

  function Sum(s: seq<nat>): nat {
    if s == [] then 0 else Sum(s[..|s| - 1]) + s[|s| - 1]
  }
}
