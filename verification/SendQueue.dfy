/** The send queue across reconnects: Send, sendCh and one writePump per generation, on top of the
    connection generations. A pump of an old generation may still take messages while a new one runs;
    nothing here stops it. */
module SendQueue {
  import opened Prelude
  import Generations
  import GenerationsRuns

  const SEND_BUFFER_SIZE := 64

  type Msg = string

  /** Selecting; holding message number k; about to report a failed write; returned. */
  datatype Pump = Selecting | Holding(k: nat) | Reporting | Gone

  datatype Loss = Loss(gen: nat, k: nat)

  /** Messages are numbered in the order Send accepted them; sendCh holds numbers. delivered and lost
      are history: the messages written successfully, and those whose write failed. */
  datatype State = State(
    links: Generations.State,
    sendCh: seq<nat>,
    pumps: seq<Pump>,         // by generation
    accepted: seq<Msg>,
    delivered: seq<nat>,
    lost: seq<Loss>
  )

  datatype Action =
    | Link(a: Generations.Action)        // a step of the connection machinery
    | Send(msg: Msg)                     // accepted by the channel
    | Take(g: nat)                       // writePump receives from sendCh
    | Write(g: nat, ok: bool)            // and writes to its own socket
    | Report(g: nat, r: nat)             // and reports a failed write
    | Leave(g: nat)                      // connCtx is done

  function Initial(): State {
    State(Generations.INITIAL, [], [], [], [], [])
  }

  predicate Cancelled(l: Generations.State, g: nat)
    requires g < |l.link.gens|
  {
    l.link.gens[g].cancelled || !l.live
  }

  predicate Enabled(s: State, a: Action) {
    match a
    case Link(b) => Generations.Enabled(s.links, b)
    case Send(_) => |s.sendCh| < SEND_BUFFER_SIZE
    case Take(g) => g < |s.pumps| && s.pumps[g] == Selecting && s.sendCh != []
    case Write(g, ok) =>
      && g < |s.pumps| && s.pumps[g].Holding?
      && (ok ==> g < |s.links.link.gens| && s.links.link.gens[g].open)
    case Report(g, r) =>
      g < |s.pumps| && s.pumps[g] == Reporting && Generations.Enabled(s.links, Generations.ReportBegin(r))
    case Leave(g) => g < |s.pumps| && s.pumps[g] == Selecting && g < |s.links.link.gens| && Cancelled(s.links, g)
  }

  function Apply(s: State, a: Action): State
    requires Enabled(s, a)
  {
    match a
    case Link(b) =>
      s.(links := Generations.Apply(s.links, b), pumps := if b.Install? then s.pumps + [Selecting] else s.pumps)
    case Send(msg) => s.(accepted := s.accepted + [msg], sendCh := s.sendCh + [|s.accepted|])
    case Take(g) => s.(sendCh := s.sendCh[1..], pumps := s.pumps[g := Holding(s.sendCh[0])])
    case Write(g, ok) =>
      if ok then s.(delivered := s.delivered + [s.pumps[g].k], pumps := s.pumps[g := Selecting])
      else s.(lost := s.lost + [Loss(g, s.pumps[g].k)], pumps := s.pumps[g := Reporting])
    case Report(g, r) =>
      s.(links := Generations.Apply(s.links, Generations.ReportBegin(r)), pumps := s.pumps[g := Gone])
    case Leave(g) => s.(pumps := s.pumps[g := Gone])
  }

  ghost predicate Run(s: State, acts: seq<Action>, t: State)
    decreases |acts|
  {
    if acts == [] then s == t
    else Enabled(s, acts[0]) && Run(Apply(s, acts[0]), acts[1..], t)
  }

  ghost predicate Reachable(t: State) {
    exists acts :: Run(Initial(), acts, t)
  }

  // ---------------------------------------------------------------------------------------------

  ghost predicate IsLost(lost: seq<Loss>, k: nat) {
    exists i :: 0 <= i < |lost| && lost[i].k == k
  }

  ghost predicate IsHeld(pumps: seq<Pump>, k: nat) {
    exists g :: 0 <= g < |pumps| && pumps[g] == Holding(k)
  }

  /** First number still in the channel. */
  function Taken(s: State): int {
    |s.accepted| - |s.sendCh|
  }

  /** The channel holds the last numbers, in order; every number taken out is delivered, lost or in a
      pump's hand, and only one of these, once. */
  ghost predicate PlacesInv(s: State) {
    && Taken(s) >= 0
    && |s.sendCh| <= SEND_BUFFER_SIZE
    && (forall i :: 0 <= i < |s.sendCh| ==> s.sendCh[i] == Taken(s) + i)
    && (forall k: nat :: k < Taken(s) ==> k in s.delivered || IsLost(s.lost, k) || IsHeld(s.pumps, k))
    && (forall k :: k in s.delivered ==> k < Taken(s) && !IsLost(s.lost, k) && !IsHeld(s.pumps, k))
    && (forall i :: 0 <= i < |s.lost| ==> s.lost[i].k < Taken(s) && !IsHeld(s.pumps, s.lost[i].k))
    && (forall g :: 0 <= g < |s.pumps| && s.pumps[g].Holding? ==> s.pumps[g].k < Taken(s))
    && (forall g, h :: 0 <= g < h < |s.pumps| && s.pumps[g].Holding? ==> s.pumps[h] != s.pumps[g])
    && (forall i, j :: 0 <= i < j < |s.lost| ==> s.lost[i].k != s.lost[j].k)
  }

  /** A pump loses at most one message and is then on its way out. */
  ghost predicate LossInv(s: State) {
    && (forall i :: 0 <= i < |s.lost| ==>
          s.lost[i].gen < |s.pumps| && (s.pumps[s.lost[i].gen] == Reporting || s.pumps[s.lost[i].gen] == Gone))
    && (forall i, j :: 0 <= i < j < |s.lost| ==> s.lost[i].gen != s.lost[j].gen)
  }

  /** Deliveries go out in acceptance order: whoever holds an open socket holds a newer message. */
  ghost predicate OrderInv(s: State) {
    && |s.pumps| == |s.links.link.gens|
    && Increasing(s.delivered)
    && (forall g, k ::
          0 <= g < |s.pumps| && s.pumps[g].Holding? && s.links.link.gens[g].open && k in s.delivered ==>
            k < s.pumps[g].k)
  }

  lemma SetPump(pumps: seq<Pump>, g: nat, p: Pump)
    requires g < |pumps|
    requires forall i, j :: 0 <= i < j < |pumps| && pumps[i].Holding? ==> pumps[j] != pumps[i]
    ensures forall k :: IsHeld(pumps[g := p], k) <==> p == Holding(k) || (IsHeld(pumps, k) && pumps[g] != Holding(k))
  {
    forall k
      ensures IsHeld(pumps[g := p], k) <==> p == Holding(k) || (IsHeld(pumps, k) && pumps[g] != Holding(k))
    {
      if p == Holding(k) {
        assert pumps[g := p][g] == Holding(k);
      } else if IsHeld(pumps, k) {
        var h :| 0 <= h < |pumps| && pumps[h] == Holding(k);
        assert h != g ==> pumps[g := p][h] == Holding(k);
      }
    }
  }

  lemma AddPump(pumps: seq<Pump>)
    ensures forall k :: IsHeld(pumps + [Selecting], k) <==> IsHeld(pumps, k)
  {
    forall k | IsHeld(pumps, k)
      ensures IsHeld(pumps + [Selecting], k)
    {
      var h :| 0 <= h < |pumps| && pumps[h] == Holding(k);
      assert (pumps + [Selecting])[h] == Holding(k);
    }
  }

  lemma AddLoss(lost: seq<Loss>, l: Loss)
    ensures forall k :: IsLost(lost + [l], k) <==> IsLost(lost, k) || k == l.k
  {
    assert (lost + [l])[|lost|] == l;
    forall k | IsLost(lost, k)
      ensures IsLost(lost + [l], k)
    {
      var i :| 0 <= i < |lost| && lost[i].k == k;
      assert (lost + [l])[i].k == k;
    }
  }

  lemma PlacesStep(s: State, a: Action)
    requires Enabled(s, a) && PlacesInv(s)
    ensures PlacesInv(Apply(s, a))
  {
    match a
    case Link(_) => AddPump(s.pumps);
    case Send(_) =>
    case Take(g) => TakeKeeps(s, g);
    case Write(g, ok) => WriteKeeps(s, g, ok);
    case Report(g, r) => SetPump(s.pumps, g, Gone);
    case Leave(g) => SetPump(s.pumps, g, Gone);
  }

  lemma TakeKeeps(s: State, g: nat)
    requires Enabled(s, Take(g)) && PlacesInv(s)
    ensures PlacesInv(Apply(s, Take(g)))
  {
    SetPump(s.pumps, g, Holding(s.sendCh[0]));
  }

  lemma WriteKeeps(s: State, g: nat, ok: bool)
    requires Enabled(s, Write(g, ok)) && PlacesInv(s)
    ensures PlacesInv(Apply(s, Write(g, ok)))
  {
    var k := s.pumps[g].k;
    assert IsHeld(s.pumps, k);
    if ok {
      SetPump(s.pumps, g, Selecting);
    } else {
      SetPump(s.pumps, g, Reporting);
      AddLoss(s.lost, Loss(g, k));
    }
  }

  lemma LossStep(s: State, a: Action)
    requires Enabled(s, a) && LossInv(s)
    ensures LossInv(Apply(s, a))
  {
  }

  lemma OrderStep(s: State, a: Action)
    requires Enabled(s, a) && GenerationsRuns.Inv(s.links) && PlacesInv(s) && OrderInv(s)
    ensures OrderInv(Apply(s, a))
  {
    match a
    case Link(b) => OrderLink(s, b);
    case Send(_) =>
    case Take(g) =>
    case Write(g, ok) => if ok { OrderWrite(s, g); }
    case Report(g, r) =>
    case Leave(g) =>
  }

  /** The connection machinery never reopens a socket. */
  lemma NeverReopened(l: Generations.State, b: Generations.Action, g: nat)
    requires Generations.Enabled(l, b) && g < |l.link.gens|
    ensures var l' := Generations.Apply(l, b);
            && |l'.link.gens| == |l.link.gens| + (if b.Install? then 1 else 0)
            && (l'.link.gens[g].open ==> l.link.gens[g].open)
  {
  }

  lemma OrderLink(s: State, b: Generations.Action)
    requires Enabled(s, Link(b)) && OrderInv(s)
    ensures OrderInv(Apply(s, Link(b)))
  {
    forall g | 0 <= g < |s.links.link.gens|
      ensures var l' := Generations.Apply(s.links, b);
              g < |l'.link.gens| && (l'.link.gens[g].open ==> s.links.link.gens[g].open)
    {
      NeverReopened(s.links, b, g);
    }
  }

  lemma OrderWrite(s: State, g: nat)
    requires Enabled(s, Write(g, true)) && GenerationsRuns.Inv(s.links) && OrderInv(s)
    ensures OrderInv(Apply(s, Write(g, true)))
  {
    assert forall i :: 0 <= i < |s.delivered| ==> s.delivered[i] in s.delivered;
    assert forall h :: 0 <= h < |s.pumps| && s.links.link.gens[h].open ==> h == g;
  }

  ghost predicate Inv(s: State) {
    && GenerationsRuns.Inv(s.links)
    && PlacesInv(s)
    && LossInv(s)
    && OrderInv(s)
  }

  lemma LinksStep(s: State, a: Action)
    requires Enabled(s, a) && GenerationsRuns.Inv(s.links)
    ensures GenerationsRuns.Inv(Apply(s, a).links)
  {
    match a
    case Link(b) => GenerationsRuns.StepKeeps(s.links, b);
    case Report(_, r) => GenerationsRuns.StepKeeps(s.links, Generations.ReportBegin(r));
    case _ =>
  }

  lemma StepKeeps(s: State, a: Action)
    requires Enabled(s, a) && Inv(s)
    ensures Inv(Apply(s, a))
  {
    PlacesStep(s, a);
    LossStep(s, a);
    OrderStep(s, a);
    LinksStep(s, a);
  }

  lemma {:induction false} RunKeeps(s: State, acts: seq<Action>, t: State)
    requires Inv(s) && Run(s, acts, t)
    ensures Inv(t)
    decreases |acts|
  {
    if acts != [] {
      StepKeeps(s, acts[0]);
      RunKeeps(Apply(s, acts[0]), acts[1..], t);
    }
  }

  lemma ReachableInv(t: State)
    requires Reachable(t)
    ensures Inv(t)
  {
    var acts :| Run(Initial(), acts, t);
    GenerationsRuns.InitialInv();
    RunKeeps(Initial(), acts, t);
  }

  // ---------------------------------------------------------------------------------------------
  // The promises
  // ---------------------------------------------------------------------------------------------

  /** Accepted messages are the disjoint union of delivered, queued, in a pump's hand and lost, and each
      of these lists a message at most once. */
  lemma MessageConservation(s: State, k: nat)
    requires Reachable(s)
    ensures k < |s.accepted| <==> k in s.delivered || k in s.sendCh || IsHeld(s.pumps, k) || IsLost(s.lost, k)
    ensures k in s.delivered ==> k !in s.sendCh && !IsHeld(s.pumps, k) && !IsLost(s.lost, k)
    ensures k in s.sendCh ==> !IsHeld(s.pumps, k) && !IsLost(s.lost, k)
    ensures IsHeld(s.pumps, k) ==> !IsLost(s.lost, k)
    ensures Increasing(s.delivered) && Increasing(s.sendCh)
    ensures forall g, h :: 0 <= g < h < |s.pumps| && s.pumps[g].Holding? ==> s.pumps[h] != s.pumps[g]
    ensures forall i, j :: 0 <= i < j < |s.lost| ==> s.lost[i].k != s.lost[j].k
  {
    ReachableInv(s);
    if Taken(s) <= k < |s.accepted| {
      assert s.sendCh[k - Taken(s)] == k;
    }
    if IsLost(s.lost, k) {
      var i :| 0 <= i < |s.lost| && s.lost[i].k == k;
      assert k < Taken(s);
    }
  }

  /** What was delivered, over the whole run and every generation. */
  function DeliveredMessages(s: State): (r: seq<Msg>)
    requires forall k :: k in s.delivered ==> k < |s.accepted|
  {
    seq(|s.delivered|, i requires 0 <= i < |s.delivered| =>
      assert s.delivered[i] in s.delivered; s.accepted[s.delivered[i]])
  }

  /** Delivered messages are a subsequence of the accepted ones: an order-preserving injection of
      positions carries one into the other. */
  lemma DeliveredInAcceptanceOrder(s: State)
    requires Reachable(s)
    ensures forall k :: k in s.delivered ==> k < |s.accepted|
    ensures |DeliveredMessages(s)| == |s.delivered| && Increasing(s.delivered)
    ensures forall i :: 0 <= i < |s.delivered| ==>
              s.delivered[i] < |s.accepted| && DeliveredMessages(s)[i] == s.accepted[s.delivered[i]]
  {
    ReachableInv(s);
    assert forall i :: 0 <= i < |s.delivered| ==> s.delivered[i] in s.delivered;
  }

  /** At most one message is lost per generation, stale pump or not. */
  lemma AtMostOneLossPerGeneration(s: State, i: nat, j: nat)
    requires Reachable(s) && i < j < |s.lost|
    ensures s.lost[i].gen != s.lost[j].gen
    ensures |s.lost| <= |s.links.link.gens|
  {
    ReachableInv(s);
    DistinctBelow(s.lost, |s.pumps|);
  }

  /** Losses of different generations are no more than the generations. */
  lemma {:induction false} DistinctBelow(lost: seq<Loss>, n: nat)
    requires forall i :: 0 <= i < |lost| ==> lost[i].gen < n
    requires forall i, j :: 0 <= i < j < |lost| ==> lost[i].gen != lost[j].gen
    ensures |lost| <= n
  {
    if lost != [] {
      assert lost[0].gen < n;
      if exists i :: 0 <= i < |lost| && lost[i].gen == n - 1 {
        var i :| 0 <= i < |lost| && lost[i].gen == n - 1;
        DistinctBelow(lost[..i] + lost[i + 1..], n - 1);
      } else {
        DistinctBelow(lost, n - 1);
      }
    }
  }

  // ---- stale pumps ----

  /** Pump g's report r takes down the connection of another generation. */
  predicate HitsAnother(s: State, g: nat, r: nat)
    requires Enabled(s, Report(g, r))
  {
    var s' := Apply(s, Report(g, r));
    exists h :: 0 <= h < |s.links.link.gens| && h != g && s.links.link.conn == Some(h)
                && s'.links.link.conn == None && r in s'.links.reports && s'.links.reports[r].held.conn == Some(h)
  }

  /** Exactly when a pump's report hits a generation that is not its own: when there is a connection and
      the pump's is not the newest generation. */
  lemma StaleReportHitsIff(s: State, g: nat, r: nat)
    requires Reachable(s) && Enabled(s, Report(g, r))
    ensures HitsAnother(s, g, r) <==> s.links.link.connected && g != |s.links.link.gens| - 1
  {
    ReachableInv(s);
  }

  lemma {:induction false} RunExtends(s: State, acts: seq<Action>, t: State, a: Action)
    requires Run(s, acts, t) && Enabled(t, a)
    ensures Run(s, acts + [a], Apply(t, a))
    decreases |acts|
  {
    if acts == [] {
      assert Run(Apply(t, a), [], Apply(t, a));
    } else {
      RunExtends(Apply(s, acts[0]), acts[1..], t, a);
      assert (acts + [a])[1..] == acts[1..] + [a];
    }
  }

  lemma Advance(s: State, a: Action) returns (t: State)
    requires Reachable(s) && Enabled(s, a)
    ensures Reachable(t) && t == Apply(s, a)
  {
    var acts :| Run(Initial(), acts, s);
    RunExtends(Initial(), acts, s, a);
    t := Apply(s, a);
  }

  lemma ConnectedWitness() returns (s: State)
    ensures Reachable(s) && s.pumps == [Selecting] && s.sendCh == [] && s.accepted == []
    ensures s.links.sup.at == Generations.WaitingOn(0) && s.links.live && s.links.reports == map[]
    ensures s.links.link == Generations.InstallGen(Generations.INITIAL.link)
  {
    assert Run(Initial(), [], Initial());
    s := Advance(Initial(), Link(Generations.ConnectBegin));
    s := Advance(s, Link(Generations.Install));
    s := Advance(s, Link(Generations.Announce));
    s := Advance(s, Link(Generations.ReadDone));
  }

  /** The pump of the first generation has a message in hand, and its connection is current. */
  lemma BusyPumpWitness(msg: Msg) returns (s: State)
    ensures Reachable(s) && s.pumps == [Holding(0)]
    ensures s.links.sup.at == Generations.WaitingOn(0) && s.links.live && s.links.reports == map[]
    ensures s.links.link == Generations.InstallGen(Generations.INITIAL.link)
  {
    s := ConnectedWitness();
    s := Advance(s, Send(msg));
    s := Advance(s, Take(0));
  }

  /** Then somebody else reports the connection dead. */
  lemma ReportingWitness(msg: Msg) returns (s: State)
    ensures Reachable(s) && s.pumps == [Holding(0)]
    ensures s.links.sup.at == Generations.WaitingOn(0) && s.links.live
    ensures var held := Generations.Capture(Some(0), Some(0), Some(0), Some(0));
            s.links.reports == map[0 := Generations.Report(Generations.AtClose, held)]
    ensures s.links.link.gens == [Generations.Gen(true, true, false, 0)]
  {
    s := BusyPumpWitness(msg);
    s := Advance(s, Link(Generations.ReportBegin(0)));
    s := Advance(s, Link(Generations.ReportCancel(0)));
  }

  lemma DisconnectedWitness(msg: Msg) returns (s: State)
    ensures Reachable(s) && s.pumps == [Holding(0)]
    ensures s.links.sup.at == Generations.WaitingOn(0) && s.links.live && s.links.reports == map[]
    ensures |s.links.link.gens| == 1 && Generations.IsClosed(s.links.link, 0)
  {
    s := ReportingWitness(msg);
    s := Advance(s, Link(Generations.ReportClose(0)));
    s := Advance(s, Link(Generations.ReportDone(0)));
  }

  /** And the supervisor reconnects. */
  lemma ReconnectedWitness(msg: Msg) returns (s: State)
    ensures Reachable(s) && s.pumps == [Holding(0), Selecting] && s.links.reports == map[]
    ensures |s.links.link.gens| == 2 && s.links.link.connected
  {
    s := DisconnectedWitness(msg);
    s := Advance(s, Link(Generations.Wake));
    s := Advance(s, Link(Generations.CheckContext));
    s := Advance(s, Link(Generations.TimerFires));
    s := Advance(s, Link(Generations.Install));
  }

  /** So a stale report does hit the new connection: the old pump's write fails only now. */
  lemma StalePumpWitness(msg: Msg) returns (s: State)
    ensures Reachable(s) && Enabled(s, Report(0, 1)) && HitsAnother(s, 0, 1)
  {
    s := ReconnectedWitness(msg);
    s := Advance(s, Write(0, false));
    StaleReportHitsIff(s, 0, 1);
  }
}
