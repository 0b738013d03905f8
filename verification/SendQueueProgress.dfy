/** The send queue delivers: a pump whose socket works sends everything that waits, in order, and nothing is
    lost but by a failed write. */
module SendQueueProgress {
  import Generations
  import opened SendQueue

  /** Taking and writing the oldest message puts it on the wire and leaves the pump where it was. */
  lemma DeliverOne(s: State, g: nat) returns (t: State)
    requires g < |s.pumps| && s.pumps[g] == Selecting && s.sendCh != []
    requires g < |s.links.link.gens| && s.links.link.gens[g].open
    ensures Run(s, [Take(g), Write(g, true)], t)
    ensures t == s.(sendCh := s.sendCh[1..], delivered := s.delivered + [s.sendCh[0]])
  {
    var mid := Apply(s, Take(g));
    t := Apply(mid, Write(g, true));
    assert t.pumps == s.pumps;
    assert Run(t, [], t);
    assert [Write(g, true)][1..] == [];
    assert Run(mid, [Write(g, true)], t);
    assert [Take(g), Write(g, true)][1..] == [Write(g, true)];
  }

  lemma {:induction false} RunsJoin(s: State, a: seq<Action>, t: State, b: seq<Action>, u: State)
    requires Run(s, a, t) && Run(t, b, u)
    ensures Run(s, a + b, u)
    decreases |a|
  {
    if a == [] {
      assert a + b == b;
    } else {
      RunsJoin(Apply(s, a[0]), a[1..], t, b, u);
      assert (a + b)[1..] == a[1..] + b;
    }
  }

  /** A pump in its select on an open socket can send all that is queued: afterwards the channel is empty,
      the messages are delivered in their order, and nothing else has changed. */
  lemma {:induction false} PumpDrainsQueue(s: State, g: nat) returns (acts: seq<Action>, t: State)
    requires g < |s.pumps| && s.pumps[g] == Selecting
    requires g < |s.links.link.gens| && s.links.link.gens[g].open
    ensures Run(s, acts, t) && forall a :: a in acts ==> a == Take(g) || a == Write(g, true)
    ensures t == s.(sendCh := [], delivered := s.delivered + s.sendCh)
    decreases |s.sendCh|
  {
    if s.sendCh == [] {
      acts, t := [], s;
      assert s.delivered + s.sendCh == s.delivered;
    } else {
      var u := DeliverOne(s, g);
      var rest;
      rest, t := PumpDrainsQueue(u, g);
      RunsJoin(s, [Take(g), Write(g, true)], u, rest, t);
      acts := [Take(g), Write(g, true)] + rest;
      assert s.delivered + s.sendCh == s.delivered + [s.sendCh[0]] + s.sendCh[1..];
    }
  }

  /** After a reconnect, whatever was left in the channel can go out on the new connection. */
  lemma ReconnectFlushes(s: State) returns (acts: seq<Action>, t: State)
    requires Reachable(s) && Enabled(s, Link(Generations.Install))
    ensures Run(s, [Link(Generations.Install)] + acts, t)
    ensures t.sendCh == [] && t.delivered == s.delivered + s.sendCh && t.lost == s.lost && t.accepted == s.accepted
  {
    ReachableInv(s);
    var u := Apply(s, Link(Generations.Install));
    acts, t := PumpDrainsQueue(u, |s.pumps|);
    assert ([Link(Generations.Install)] + acts)[1..] == acts;
  }

  /** Only a failed write loses a message. */
  lemma {:induction false} LossNeedsFailure(s: State, acts: seq<Action>, t: State)
    requires Run(s, acts, t) && forall a :: a in acts ==> !(a.Write? && !a.ok)
    ensures t.lost == s.lost
    decreases |acts|
  {
    if acts != [] {
      assert acts[0] in acts;
      LossNeedsFailure(Apply(s, acts[0]), acts[1..], t);
    }
  }

  ghost predicate LostInGen(lost: seq<Loss>, g: nat) {
    exists i :: 0 <= i < |lost| && lost[i].gen == g
  }

  ghost predicate ReportersLost(s: State) {
    forall g :: 0 <= g < |s.pumps| && s.pumps[g] == Reporting ==> LostInGen(s.lost, g)
  }

  lemma ReportersLostStep(s: State, a: Action)
    requires Enabled(s, a) && ReportersLost(s)
    ensures ReportersLost(Apply(s, a))
  {
    var lost, lost' := s.lost, Apply(s, a).lost;
    forall g | LostInGen(lost, g)
      ensures LostInGen(lost', g)
    {
      var i :| 0 <= i < |lost| && lost[i].gen == g;
      assert lost'[i].gen == g;
    }
    if a.Write? && !a.ok {
      assert lost'[|lost|].gen == a.g;
    }
  }

  lemma {:induction false} ReportersLostRun(s: State, acts: seq<Action>, t: State)
    requires ReportersLost(s) && Run(s, acts, t)
    ensures ReportersLost(t)
    decreases |acts|
  {
    if acts != [] {
      ReportersLostStep(s, acts[0]);
      ReportersLostRun(Apply(s, acts[0]), acts[1..], t);
    }
  }

  /** A pump reports a dead connection only after one of its own writes has failed. */
  lemma ReportNeedsLoss(s: State, g: nat, r: nat)
    requires Reachable(s) && Enabled(s, Report(g, r))
    ensures LostInGen(s.lost, g)
  {
    var acts :| Run(Initial(), acts, s);
    ReportersLostRun(Initial(), acts, s);
  }

  /** A pump that has left, its context cancelled or its disconnect reported, never takes a message again. */
  lemma {:induction false} GonePumpStays(s: State, acts: seq<Action>, t: State, g: nat)
    requires Run(s, acts, t) && g < |s.pumps| && s.pumps[g] == Gone
    ensures g < |t.pumps| && t.pumps[g] == Gone && Take(g) !in acts
    decreases |acts|
  {
    if acts != [] {
      GonePumpStays(Apply(s, acts[0]), acts[1..], t, g);
      assert acts == [acts[0]] + acts[1..];
    }
  }

  lemma LeavingPumpTakesNothing(s: State, g: nat, a: Action, acts: seq<Action>, t: State)
    requires Enabled(s, a) && (a == Leave(g) || (a.Report? && a.g == g))
    requires Run(Apply(s, a), acts, t)
    ensures Take(g) !in acts
  {
    GonePumpStays(Apply(s, a), acts, t, g);
  }
}
