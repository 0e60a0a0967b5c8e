/**
 The flood does come to rest: as long as it has not, some loss-free step that is not just a watcher
 looking or time passing can be taken, every such step uses up part of the budget, and where no
 more can be taken everyone who has to be reached holds the content.
 */
module FloodRuns {
  import opened Codec
  import opened Gates
  import opened Watching
  import opened ServerSpec
  import opened Network
  import opened NetworkLoad
  import opened Flood
  import opened Coverage

  /** A loss-free step that moves the clip on. */
  predicate Progress(a: Action) {
    Smooth(a) && !a.Check? && !a.Tick?
  }

  predicate AllProgress(actions: seq<Action>) {
    forall i :: 0 <= i < |actions| ==> Progress(actions[i])
  }

  lemma NextMove(g: Topology, s: State) returns (a: Action)
    requires Shaped(g, s) && !Quiescent(s)
    ensures Enabled(g, s, a) && Progress(a)
  {
    if n :| 0 <= n < |s.nodes| && s.nodes[n].firing.Some? {
      a := Announce(n);
    } else {
      var l :| 0 <= l < |s.wires| && !(s.wires[l].up == [] && s.wires[l].down == [] && s.wires[l].serving.Idle?);
      a := if s.wires[l].serving.Accepted? then WriteClip(l, true)
           else if s.wires[l].serving.Written? then Relay(l)
           else if s.wires[l].up != [] then DeliverUp(l)
           else DeliverDown(l, true);
    }
  }

  /** Coming to rest is exactly having no such step left. */
  lemma QuiescentIffStuck(g: Topology, s: State)
    requires Shaped(g, s)
    ensures Quiescent(s) <==> forall a :: Progress(a) ==> !Enabled(g, s, a)
  {
    if !Quiescent(s) {
      var a := NextMove(g, s);
    } else {
      forall a | Progress(a)
        ensures !Enabled(g, s, a)
      {
      }
    }
  }

  lemma SpreadingCarries(g: Topology, s: State, o: nat, c: Content, shut: set<nat>, cfg: Config)
    requires Shaped(g, s) && Spreading(g, s, o, c, shut, cfg) && Stable(c)
    ensures OneKey(s, KeyOf(c))
  {
    forall l | 0 <= l < |s.wires|
      ensures WireCarries(s.wires[l], KeyOf(c))
    {
      assert WireHolds(s.wires[l], c);
    }
    forall n | 0 <= n < |s.nodes|
      ensures NodeCarries(s.nodes[n], KeyOf(c))
    {
      assert NodeHolds(s.nodes[n], c);
    }
  }

  lemma ProgressIsWorthOne(g: Topology, a: Action)
    requires ValidTopology(g) && Progress(a)
    ensures Worth(Flat(g, 1), a) == 1 && Injected(g, Flat(g, 1), a) == 0
  {
  }

  lemma ProgressIsPaid(g: Topology, s: State, a: Action, o: nat, c: Content, shut: set<nat>, start: int, cfg: Config)
    requires Shaped(g, s) && Spreading(g, s, o, c, shut, cfg) && Stable(c) && !TooBig(c, cfg)
    requires Enabled(g, s, a) && Progress(a)
    requires SpentOnce(s, KeyOf(c), start) && s.now - start < cfg.window
    ensures var t := Do(g, s, a, cfg);
            Budget(g, 1, t) < Budget(g, 1, s) && Spreading(g, t, o, c, shut, cfg)
            && SpentOnce(t, KeyOf(c), start) && t.now == s.now
  {
    SpreadingCarries(g, s, o, c, shut, cfg);
    ProgressIsWorthOne(g, a);
    BudgetStep(g, 1, s, a, KeyOf(c), start, cfg);
    SpentStep(g, s, a, KeyOf(c), start, cfg);
    SpreadingStep(g, s, a, o, c, shut, cfg);
    StandsStill(g, s, a, cfg);
  }

  lemma StandsStill(g: Topology, s: State, a: Action, cfg: Config)
    requires Shaped(g, s) && Enabled(g, s, a) && !a.Tick?
    ensures Do(g, s, a, cfg).now == s.now
  {
  }

  lemma {:induction false} PaidSoFar(
    g: Topology, s: State, actions: seq<Action>, o: nat, c: Content, shut: set<nat>, start: int, cfg: Config)
    requires Shaped(g, s) && Spreading(g, s, o, c, shut, cfg) && Stable(c) && !TooBig(c, cfg)
    requires SpentOnce(s, KeyOf(c), start) && s.now - start < cfg.window
    requires Run(g, s, actions, cfg) && AllProgress(actions)
    ensures var t := After(g, s, actions, cfg);
            |actions| + Budget(g, 1, t) <= Budget(g, 1, s) && Spreading(g, t, o, c, shut, cfg)
            && SpentOnce(t, KeyOf(c), start) && t.now == s.now
    decreases |actions|
  {
    if actions != [] {
      assert Progress(actions[0]);
      assert forall i :: 0 <= i < |actions| - 1 ==> actions[1..][i] == actions[i + 1];
      ProgressIsPaid(g, s, actions[0], o, c, shut, start, cfg);
      PaidSoFar(g, Do(g, s, actions[0], cfg), actions[1..], o, c, shut, start, cfg);
    }
  }

  lemma {:induction false} RunsToRest(
    g: Topology, s: State, o: nat, c: Content, shut: set<nat>, start: int, cfg: Config)
    returns (actions: seq<Action>)
    requires Shaped(g, s) && Spreading(g, s, o, c, shut, cfg) && Stable(c) && !TooBig(c, cfg)
    requires SpentOnce(s, KeyOf(c), start) && s.now - start < cfg.window
    ensures Run(g, s, actions, cfg) && AllProgress(actions)
    ensures Quiescent(After(g, s, actions, cfg))
    decreases Budget(g, 1, s)
  {
    if Quiescent(s) {
      actions := [];
    } else {
      var a := NextMove(g, s);
      var t := Do(g, s, a, cfg);
      ProgressIsPaid(g, s, a, o, c, shut, start, cfg);
      var rest := RunsToRest(g, t, o, c, shut, start, cfg);
      RunFirst(g, s, a, rest, cfg);
      actions := [a] + rest;
    }
  }

  predicate AllSmooth(actions: seq<Action>) {
    forall i :: 0 <= i < |actions| ==> Smooth(actions[i])
  }

  lemma SmoothConcat(first: seq<Action>, rest: seq<Action>)
    requires AllSmooth(first) && AllProgress(rest)
    ensures AllSmooth(first + rest)
  {
    var all := first + rest;
    forall i | 0 <= i < |all|
      ensures Smooth(all[i])
    {
      assert i >= |first| ==> Progress(rest[i - |first|]);
    }
  }

  ghost predicate AllCovered(g: Topology, s: State, o: nat, c: Content, shut: set<nat>)
    requires Shaped(g, s)
  {
    forall w :: OpenPath(g, o, w, shut) ==> Covered(g, s, g.links[w[|w| - 1]].server, c)
  }

  lemma RestReachesAll(g: Topology, s: State, o: nat, c: Content, shut: set<nat>, cfg: Config)
    requires Shaped(g, s) && Spreading(g, s, o, c, shut, cfg) && Quiescent(s)
    ensures AllCovered(g, s, o, c, shut)
  {
    forall w | OpenPath(g, o, w, shut)
      ensures Covered(g, s, g.links[w[|w| - 1]].server, c)
    {
      RestIsCovered(g, s, o, c, shut, w, cfg);
    }
  }

  lemma SmoothAddsNothing(actions: seq<Action>, k: Key)
    requires AllSmooth(actions)
    ensures NothingNew(actions) && forall i :: 0 <= i < |actions| ==> OnlyKey(actions[i], k)
  {
    forall i | 0 <= i < |actions|
      ensures OnlyKey(actions[i], k) && !actions[i].Copy? && !actions[i].Send?
    {
      assert Smooth(actions[i]);
    }
  }

  lemma StartSpent(g: Topology, s: State, o: nat, c: Content, cfg: Config)
    requires Shaped(g, s) && Start(g, s, o, c)
    ensures SpentOnce(s, KeyOf(c), s.now)
  {
  }

  /** What a loss-free run inside the window has paid, and what it leaves for the rest. */
  lemma Midway(g: Topology, s: State, so: seq<Action>, o: nat, c: Content, cfg: Config)
    requires Shaped(g, s) && Start(g, s, o, c) && Stable(c) && !TooBig(c, cfg)
    requires Run(g, s, so, cfg) && AllSmooth(so) && After(g, s, so, cfg).now - s.now < cfg.window
    ensures var t := After(g, s, so, cfg);
            && Spreading(g, t, o, c, ShutAt(s, c, s.now, cfg), cfg) && SpentOnce(t, KeyOf(c), s.now)
            && Budget(g, 1, t) + TotalWorth(Flat(g, 1), so) <= Budget(g, 1, s)
  {
    var shut := ShutAt(s, c, s.now, cfg);
    StartSpreads(g, s, o, c, cfg);
    StartSpent(g, s, o, c, cfg);
    SpreadingCarries(g, s, o, c, shut, cfg);
    AlwaysSpreading(g, s, so, o, c, shut, cfg);
    SmoothAddsNothing(so, KeyOf(c));
    FloodBound(g, 1, s, so, KeyOf(c), s.now, cfg);
    NothingNewNothingInjected(g, Flat(g, 1), so);
  }

  /**
   From any moment of a loss-free flood inside the window, whatever watchers have looked and
   whatever time has passed, the clip can be carried to rest; the whole run is paid for by the
   budget at its start, and then every daemon at the end of a dial path from the origin through gates
   that were open, and every daemon dialling it, holds the content.
   */
  lemma FloodCompletes(
    g: Topology, s: State, so: seq<Action>, o: nat, c: Content, cfg: Config) returns (actions: seq<Action>)
    requires Shaped(g, s) && Start(g, s, o, c) && Stable(c) && !TooBig(c, cfg)
    requires Run(g, s, so, cfg) && AllSmooth(so) && After(g, s, so, cfg).now - s.now < cfg.window
    ensures AllProgress(actions) && AllSmooth(so + actions)
    ensures Run(g, s, so + actions, cfg)
    ensures TotalWorth(Flat(g, 1), so + actions) <= Budget(g, 1, s)
    ensures var t := After(g, s, so + actions, cfg);
            Quiescent(t) && AllCovered(g, t, o, c, ShutAt(s, c, s.now, cfg))
  {
    Midway(g, s, so, o, c, cfg);
    var mid, shut := After(g, s, so, cfg), ShutAt(s, c, s.now, cfg);
    actions := RunsToRest(g, mid, o, c, shut, s.now, cfg);
    PaidSoFar(g, mid, actions, o, c, shut, s.now, cfg);
    RunConcat(g, s, so, actions, cfg);
    SmoothConcat(so, actions);
    Midway(g, s, so + actions, o, c, cfg);
    RestReachesAll(g, After(g, s, so + actions, cfg), o, c, shut, cfg);
  }
}
