/**
 Any number of different contents: relaying always dies out exactly when no daemon can be reached
 from itself by dialling (src/internal/websocket/peer.go:131-135, src/internal/cli/app/app.go:93).
 */
module RelayStops {
  import opened Codec
  import opened Gates
  import opened Watching
  import opened ServerSpec
  import opened Network
  import opened NetworkLoad
  import opened DialGraph
  import opened FreshNetwork

  // Without cycles

  /** What relaying at n costs over the first k links: one per client, and each dialled daemon's weight. */
  function RelayWeight(g: Topology, rank: seq<nat>, step: nat, n: nat, k: nat): nat
    requires Ranks(g, rank) && n < g.nodes && k <= |g.links|
    decreases rank[n], k
  {
    if k == 0 then 0
    else
      var link := g.links[k - 1];
      RelayWeight(g, rank, step, n, k - 1)
      + (if link.dialer == n then Weight(g, rank, step, link.server) else 0)
      + (if link.server == n then 1 else 0)
  }

  /** The weight of a message to n: its delivery, its way through the handler, and what that sends on. */
  function Weight(g: Topology, rank: seq<nat>, step: nat, n: nat): nat
    requires Ranks(g, rank) && n < g.nodes
    decreases rank[n], |g.links| + 1
  {
    1 + 2 * step + RelayWeight(g, rank, step, n, |g.links|)
  }

  function Downhill(g: Topology, rank: seq<nat>, step: nat): Tariff
    requires Ranks(g, rank)
  {
    Tariff(seq(g.nodes, n requires 0 <= n < g.nodes => Weight(g, rank, step, n)), step)
  }

  lemma {:induction false} CostIsRelayWeight(g: Topology, rank: seq<nat>, step: nat, n: nat, k: nat)
    requires Ranks(g, rank) && n < g.nodes && k <= |g.links|
    ensures CostUpTo(g, Downhill(g, rank, step), n, k) == RelayWeight(g, rank, step, n, k)
  {
    if k > 0 {
      CostIsRelayWeight(g, rank, step, n, k - 1);
    }
  }

  lemma DownhillStep(g: Topology, rank: seq<nat>, step: nat, s: State, a: Action, cfg: Config)
    requires Ranks(g, rank) && Shaped(g, s) && Enabled(g, s, a)
    ensures var r := Downhill(g, rank, step);
            Load(g, r, Do(g, s, a, cfg)) + Worth(r, a) <= Load(g, r, s) + Injected(g, r, a)
  {
    var r := Downhill(g, rank, step);
    StepLoad(g, r, s, a, cfg);
    if Accepts(g, s, a, cfg) {
      CostIsRelayWeight(g, rank, step, g.links[a.l].server, |g.links|);
    }
  }

  /**
   On a ranked graph every run, with any contents at any times and whatever the gates do, does only
   the work its start and what was newly copied or sent pay for.
   */
  lemma {:induction false} AcyclicBound(
    g: Topology, rank: seq<nat>, step: nat, s: State, actions: seq<Action>, cfg: Config)
    requires Ranks(g, rank) && Shaped(g, s) && Run(g, s, actions, cfg)
    ensures var r := Downhill(g, rank, step);
            Load(g, r, After(g, s, actions, cfg)) + TotalWorth(r, actions)
            <= Load(g, r, s) + TotalInjected(g, r, actions)
    decreases |actions|
  {
    if actions != [] {
      DownhillStep(g, rank, step, s, actions[0], cfg);
      AcyclicBound(g, rank, step, Do(g, s, actions[0], cfg), actions[1..], cfg);
    }
  }

  // On a cycle

  /** What one hop over link l does: the first message is accepted, written and relayed. */
  predicate Hopped(g: Topology, s: State, l: nat, t: State)
    requires Shaped(g, s) && Shaped(g, t) && l < |s.wires| && s.wires[l].up != []
  {
    var n, c := g.links[l].server, s.wires[l].up[0];
    && t.now == s.now
    && (forall x :: 0 <= x < |s.wires| ==>
          && t.wires[x].serving == s.wires[x].serving && t.wires[x].peer == s.wires[x].peer
          && t.wires[x].up == (if x == l then s.wires[x].up[1..] else s.wires[x].up)
                            + (if g.links[x].dialer == n && s.wires[x].peer then [c] else []))
    && (forall m :: 0 <= m < |s.nodes| ==>
          t.nodes[m].gate == if m == n then Gate(KeyOf(c), At(s.now)) else s.nodes[m].gate)
  }

  lemma HopEffect(g: Topology, s: State, l: nat, cfg: Config)
    requires Shaped(g, s) && l < |s.wires|
    requires s.wires[l].up != [] && s.wires[l].serving.Idle?
    requires s.wires[l].up[0].Text? && Stable(s.wires[l].up[0])
    requires !IsEcho(s.nodes[g.links[l].server].gate, KeyOf(s.wires[l].up[0]), s.now, cfg.window)
    ensures var s1 := Do(g, s, DeliverUp(l), cfg);
            && Enabled(g, s1, WriteClip(l, true))
            && var s2 := Do(g, s1, WriteClip(l, true), cfg);
               && Enabled(g, s2, Relay(l))
               && Hopped(g, s, l, Do(g, s2, Relay(l), cfg))
  {
  }

  lemma OneDelivery(l: nat)
    ensures Deliveries([DeliverUp(l), WriteClip(l, true), Relay(l)]) == 1
    ensures NothingNew([DeliverUp(l), WriteClip(l, true), Relay(l)])
  {
    var actions := [DeliverUp(l), WriteClip(l, true), Relay(l)];
    assert actions[1..] == [WriteClip(l, true), Relay(l)] && actions[1..][1..] == [Relay(l)];
    assert Deliveries([Relay(l)]) == 0;
    assert Deliveries([WriteClip(l, true), Relay(l)]) == 0;
  }

  lemma Hop(g: Topology, s: State, l: nat, cfg: Config) returns (actions: seq<Action>)
    requires Shaped(g, s) && l < |s.wires|
    requires s.wires[l].up != [] && s.wires[l].serving.Idle?
    requires s.wires[l].up[0].Text? && Stable(s.wires[l].up[0])
    requires !IsEcho(s.nodes[g.links[l].server].gate, KeyOf(s.wires[l].up[0]), s.now, cfg.window)
    ensures Run(g, s, actions, cfg) && NothingNew(actions) && Deliveries(actions) == 1
    ensures Hopped(g, s, l, After(g, s, actions, cfg))
  {
    HopEffect(g, s, l, cfg);
    OneDelivery(l);
    actions := ThreeSteps(g, s, DeliverUp(l), WriteClip(l, true), Relay(l), cfg);
  }

  lemma LastStep(g: Topology, s: State, a: Action, cfg: Config)
    requires Shaped(g, s) && Enabled(g, s, a)
    ensures Run(g, s, [a], cfg) && After(g, s, [a], cfg) == Do(g, s, a, cfg)
  {
    assert [a][1..] == [];
    assert Run(g, Do(g, s, a, cfg), [], cfg);
  }

  lemma ThreeSteps(g: Topology, s: State, a: Action, b: Action, c: Action, cfg: Config) returns (actions: seq<Action>)
    requires Shaped(g, s) && Enabled(g, s, a) && Enabled(g, Do(g, s, a, cfg), b)
    requires Enabled(g, Do(g, Do(g, s, a, cfg), b, cfg), c)
    ensures actions == [a, b, c] && Run(g, s, actions, cfg)
    ensures After(g, s, actions, cfg) == Do(g, Do(g, Do(g, s, a, cfg), b, cfg), c, cfg)
  {
    var s1 := Do(g, s, a, cfg);
    var s2 := Do(g, s1, b, cfg);
    LastStep(g, s2, c, cfg);
    RunFirst(g, s1, b, [c], cfg);
    RunFirst(g, s, a, [b] + [c], cfg);
    actions := [a] + ([b] + [c]);
  }

  function NextOn(c: seq<nat>, i: nat): nat
    requires i < |c|
  {
    if i + 1 == |c| then 0 else i + 1
  }

  /** Contents a then b wait on the i-th link of the cycle, and no gate on it would stop a. */
  predicate Chasing(g: Topology, s: State, c: seq<nat>, i: nat, a: Content, b: Content)
    requires Shaped(g, s) && Cycle(g, c)
  {
    && i < |c|
    && (forall j :: 0 <= j < |c| ==>
          && s.wires[c[j]].serving.Idle? && s.wires[c[j]].peer
          && s.wires[c[j]].up == (if j == i then [a, b] else [])
          && var gate := s.nodes[g.links[c[j]].server].gate; gate.key == KeyOf(b) || gate.at.Never?)
  }

  /** Only the next link of the cycle is dialled by the daemon a link leads to. */
  lemma OnlyNextDials(g: Topology, c: seq<nat>, i: nat, j: nat)
    requires Cycle(g, c) && i < |c| && j < |c|
    ensures g.links[c[j]].dialer == g.links[c[i]].server <==> j == NextOn(c, i)
    ensures g.links[c[j]].server == g.links[c[i]].server <==> i == j
    ensures c[i] == c[j] <==> i == j
  {
    var servers := Servers(g, c);
    assert servers[i] == g.links[c[i]].server && servers[j] == g.links[c[j]].server;
    var before := if j == 0 then |c| - 1 else j - 1;
    assert servers[before] == g.links[c[before]].server == g.links[c[j]].dialer;
  }

  /** Content b still waits on the i-th link; a is a link ahead, and the gate between them holds it. */
  predicate HalfWay(g: Topology, s: State, c: seq<nat>, i: nat, a: Content, b: Content)
    requires Shaped(g, s) && Cycle(g, c)
  {
    && i < |c|
    && s.nodes[g.links[c[i]].server].gate == Gate(KeyOf(a), At(s.now))
    && (forall j :: 0 <= j < |c| ==>
          && s.wires[c[j]].serving.Idle? && s.wires[c[j]].peer
          && s.wires[c[j]].up == (if j == i then [b] else []) + (if j == NextOn(c, i) then [a] else [])
          && (j != i ==> var gate := s.nodes[g.links[c[j]].server].gate; gate.key == KeyOf(b) || gate.at.Never?))
  }

  lemma FirstHalfAt(
    g: Topology, s: State, c: seq<nat>, i: nat, j: nat, a: Content, b: Content, t: State)
    requires Shaped(g, s) && Shaped(g, t) && Cycle(g, c) && Chasing(g, s, c, i, a, b) && Hopped(g, s, c[i], t)
    requires j < |c|
    ensures t.wires[c[j]].serving.Idle? && t.wires[c[j]].peer
    ensures t.wires[c[j]].up == (if j == i then [b] else []) + (if j == NextOn(c, i) then [a] else [])
    ensures j != i ==> var gate := t.nodes[g.links[c[j]].server].gate; gate.key == KeyOf(b) || gate.at.Never?
  {
    OnlyNextDials(g, c, i, j);
    assert s.wires[c[j]].up == if j == i then [a, b] else [];
    assert [a, b][1..] == [b];
  }

  lemma FirstHalf(g: Topology, s: State, c: seq<nat>, i: nat, a: Content, b: Content, t: State)
    requires Shaped(g, s) && Shaped(g, t) && Cycle(g, c) && Chasing(g, s, c, i, a, b) && Hopped(g, s, c[i], t)
    ensures HalfWay(g, t, c, i, a, b)
  {
    assert s.wires[c[i]].up[0] == a;
    forall j | 0 <= j < |c|
      ensures t.wires[c[j]].serving.Idle? && t.wires[c[j]].peer
      ensures t.wires[c[j]].up == (if j == i then [b] else []) + (if j == NextOn(c, i) then [a] else [])
      ensures j != i ==> var gate := t.nodes[g.links[c[j]].server].gate; gate.key == KeyOf(b) || gate.at.Never?
    {
      FirstHalfAt(g, s, c, i, j, a, b, t);
    }
  }

  lemma SecondHalfAt(
    g: Topology, s: State, c: seq<nat>, i: nat, j: nat, a: Content, b: Content, t: State)
    requires Shaped(g, s) && Shaped(g, t) && Cycle(g, c) && HalfWay(g, s, c, i, a, b) && Hopped(g, s, c[i], t)
    requires j < |c|
    ensures t.wires[c[j]].serving.Idle? && t.wires[c[j]].peer
    ensures t.wires[c[j]].up == if j == NextOn(c, i) then [a, b] else []
    ensures var gate := t.nodes[g.links[c[j]].server].gate; gate.key == KeyOf(b) || gate.at.Never?
  {
    OnlyNextDials(g, c, i, j);
    var ahead := if j == NextOn(c, i) then [a] else [];
    assert s.wires[c[j]].up == (if j == i then [b] else []) + ahead;
    assert j == i ==> s.wires[c[j]].up[1..] == ahead;
  }

  lemma SecondHalf(g: Topology, s: State, c: seq<nat>, i: nat, a: Content, b: Content, t: State)
    requires Shaped(g, s) && Shaped(g, t) && Cycle(g, c) && HalfWay(g, s, c, i, a, b) && Hopped(g, s, c[i], t)
    ensures Chasing(g, t, c, NextOn(c, i), a, b)
  {
    forall j | 0 <= j < |c|
      ensures t.wires[c[j]].serving.Idle? && t.wires[c[j]].peer
      ensures t.wires[c[j]].up == if j == NextOn(c, i) then [a, b] else []
      ensures var gate := t.nodes[g.links[c[j]].server].gate; gate.key == KeyOf(b) || gate.at.Never?
    {
      SecondHalfAt(g, s, c, i, j, a, b, t);
    }
  }

  lemma LapOfA(g: Topology, s: State, c: seq<nat>, i: nat, a: Content, b: Content, cfg: Config)
    returns (actions: seq<Action>)
    requires Shaped(g, s) && Cycle(g, c) && Rivals(a, b) && Chasing(g, s, c, i, a, b)
    ensures Run(g, s, actions, cfg) && NothingNew(actions) && Deliveries(actions) == 1
    ensures HalfWay(g, After(g, s, actions, cfg), c, i, a, b)
  {
    assert s.wires[c[i]].up[0] == a && !IsEcho(s.nodes[g.links[c[i]].server].gate, KeyOf(a), s.now, cfg.window);
    actions := Hop(g, s, c[i], cfg);
    FirstHalf(g, s, c, i, a, b, After(g, s, actions, cfg));
  }

  lemma LapOfB(g: Topology, s: State, c: seq<nat>, i: nat, a: Content, b: Content, cfg: Config)
    returns (actions: seq<Action>)
    requires Shaped(g, s) && Cycle(g, c) && Rivals(a, b) && HalfWay(g, s, c, i, a, b)
    ensures Run(g, s, actions, cfg) && NothingNew(actions) && Deliveries(actions) == 1
    ensures Chasing(g, After(g, s, actions, cfg), c, NextOn(c, i), a, b)
  {
    assert s.wires[c[i]].up[0] == b && !IsEcho(s.nodes[g.links[c[i]].server].gate, KeyOf(b), s.now, cfg.window);
    actions := Hop(g, s, c[i], cfg);
    SecondHalf(g, s, c, i, a, b, After(g, s, actions, cfg));
  }

  lemma Lap(g: Topology, s: State, c: seq<nat>, i: nat, a: Content, b: Content, cfg: Config)
    returns (actions: seq<Action>)
    requires Shaped(g, s) && Cycle(g, c) && Rivals(a, b) && Chasing(g, s, c, i, a, b)
    ensures Run(g, s, actions, cfg) && NothingNew(actions) && Deliveries(actions) == 2
    ensures Chasing(g, After(g, s, actions, cfg), c, NextOn(c, i), a, b)
  {
    var first := LapOfA(g, s, c, i, a, b, cfg);
    var second := LapOfB(g, After(g, s, first, cfg), c, i, a, b, cfg);
    RunConcat(g, s, first, second, cfg);
    DeliveriesConcat(first, second);
    actions := first + second;
  }

  /** Two contents that chase each other round a dial cycle are relayed without end. */
  lemma {:induction false} ChaseNeverEnds(
    g: Topology, s: State, c: seq<nat>, i: nat, a: Content, b: Content, n: nat, cfg: Config)
    returns (actions: seq<Action>)
    requires Shaped(g, s) && Cycle(g, c) && Rivals(a, b) && Chasing(g, s, c, i, a, b)
    ensures Run(g, s, actions, cfg) && NothingNew(actions) && Deliveries(actions) == 2 * n
    decreases n
  {
    if n == 0 {
      actions := [];
    } else {
      var first := Lap(g, s, c, i, a, b, cfg);
      var rest := ChaseNeverEnds(g, After(g, s, first, cfg), c, NextOn(c, i), a, b, n - 1, cfg);
      RunConcat(g, s, first, rest, cfg);
      DeliveriesConcat(first, rest);
      actions := first + rest;
    }
  }

  /** Daemon n has put c on every link it dials, and nothing else has moved. */
  predicate SentOn(g: Topology, s: State, t: State, n: nat, c: Content)
    requires Shaped(g, s) && Shaped(g, t)
  {
    && t.nodes == s.nodes
    && forall x :: 0 <= x < |s.wires| ==>
         && t.wires[x].serving == s.wires[x].serving && t.wires[x].peer == s.wires[x].peer
         && t.wires[x].up == s.wires[x].up + if g.links[x].dialer == n && s.wires[x].peer then [c] else []
  }

  lemma SendEffect(g: Topology, s: State, n: nat, c: Content, cfg: Config)
    requires Shaped(g, s) && n < |s.nodes|
    ensures Enabled(g, s, Send(n, c)) && SentOn(g, s, Do(g, s, Send(n, c), cfg), n, c)
  {
  }

  lemma SentTwiceChases(g: Topology, s: State, s1: State, t: State, c: seq<nat>, a: Content, b: Content)
    requires Shaped(g, s) && Shaped(g, s1) && Shaped(g, t) && Cycle(g, c) && AllLinked(s)
    requires forall n :: 0 <= n < |s.nodes| ==> s.nodes[n].gate == CLOSED
    requires SentOn(g, s, s1, g.links[c[0]].dialer, a) && SentOn(g, s1, t, g.links[c[0]].dialer, b)
    ensures Chasing(g, t, c, 0, a, b)
  {
    forall j | 0 <= j < |c|
      ensures t.wires[c[j]].serving.Idle? && t.wires[c[j]].peer
      ensures t.wires[c[j]].up == if j == 0 then [a, b] else []
      ensures t.nodes[g.links[c[j]].server].gate.at.Never?
    {
      OnlyNextDials(g, c, |c| - 1, j);
      assert s.wires[c[j]] == LINKED;
    }
  }

  /** Sending a and then b at the daemon that dials the cycle's first link sets them off. */
  lemma TwoSends(g: Topology, s: State, c: seq<nat>, a: Content, b: Content, cfg: Config)
    returns (actions: seq<Action>)
    requires Shaped(g, s) && Cycle(g, c) && AllLinked(s)
    requires forall n :: 0 <= n < |s.nodes| ==> s.nodes[n].gate == CLOSED
    ensures Run(g, s, actions, cfg) && Chasing(g, After(g, s, actions, cfg), c, 0, a, b)
  {
    var n := g.links[c[0]].dialer;
    SendEffect(g, s, n, a, cfg);
    var s1 := Do(g, s, Send(n, a), cfg);
    SendEffect(g, s1, n, b, cfg);
    SentTwiceChases(g, s, s1, Do(g, s1, Send(n, b), cfg), c, a, b);
    LastStep(g, s1, Send(n, b), cfg);
    RunFirst(g, s, Send(n, a), [Send(n, b)], cfg);
    actions := [Send(n, a)] + [Send(n, b)];
  }

  /** So the chase can start on any network with a cycle: link up, send, send. */
  lemma ChaseStarts(g: Topology, s0: State, c: seq<nat>, a: Content, b: Content, cfg: Config)
    returns (actions: seq<Action>)
    requires Fresh(g, s0) && Cycle(g, c)
    ensures Run(g, s0, actions, cfg) && Chasing(g, After(g, s0, actions, cfg), c, 0, a, b)
  {
    var linked := LinkAll(g, s0, cfg);
    var sends := TwoSends(g, After(g, s0, linked, cfg), c, a, b, cfg);
    RunConcat(g, s0, linked, sends, cfg);
    actions := linked + sends;
  }

  // Exactly when

  ghost predicate Bounds(g: Topology, s: State, cfg: Config, bound: nat)
    requires Shaped(g, s)
  {
    forall actions :: Run(g, s, actions, cfg) && NothingNew(actions) ==> Deliveries(actions) <= bound
  }

  /** From here on, without new copies, only so many messages are ever delivered. */
  ghost predicate DiesOut(g: Topology, s: State, cfg: Config)
    requires Shaped(g, s)
  {
    exists bound: nat :: Bounds(g, s, cfg, bound)
  }

  lemma AcyclicDiesOut(g: Topology, rank: seq<nat>, s: State, cfg: Config)
    requires Ranks(g, rank) && Shaped(g, s)
    ensures DiesOut(g, s, cfg)
  {
    var r := Downhill(g, rank, 0);
    forall actions | Run(g, s, actions, cfg) && NothingNew(actions)
      ensures Deliveries(actions) <= Load(g, r, s)
    {
      AcyclicBound(g, rank, 0, s, actions, cfg);
      DeliveriesAreWorth(r, actions);
      NothingNewNothingInjected(g, r, actions);
    }
    assert Bounds(g, s, cfg, Load(g, r, s));
  }

  lemma ChaseDoesNotDieOut(g: Topology, s: State, c: seq<nat>, a: Content, b: Content, cfg: Config)
    requires Shaped(g, s) && Cycle(g, c) && Rivals(a, b) && Chasing(g, s, c, 0, a, b)
    ensures !DiesOut(g, s, cfg)
  {
    forall bound: nat
      ensures !Bounds(g, s, cfg, bound)
    {
      var actions := ChaseNeverEnds(g, s, c, 0, a, b, bound + 1, cfg);
      assert Run(g, s, actions, cfg) && NothingNew(actions) && Deliveries(actions) > bound;
    }
  }

  /** From any fresh network with a cycle, linking up and two sends lead to a state that never dies out. */
  lemma CycleDoesNot(g: Topology, s0: State, c: seq<nat>, cfg: Config) returns (s: State)
    requires Fresh(g, s0) && Cycle(g, c)
    ensures Shaped(g, s) && Reachable(g, s, cfg) && !DiesOut(g, s, cfg)
  {
    var a, b := SomeRivals();
    var actions := ChaseStarts(g, s0, c, a, b, cfg);
    s := After(g, s0, actions, cfg);
    ChaseDoesNotDieOut(g, s, c, a, b, cfg);
  }

  ghost predicate AlwaysDiesOut(g: Topology, cfg: Config) {
    forall s :: Shaped(g, s) && Reachable(g, s, cfg) ==> DiesOut(g, s, cfg)
  }

  /**
   Relaying dies out from every state the network can get to exactly when the dial graph has no
   cycle, and then from every other state as well.
   */
  lemma RelayDiesOutIffAcyclic(g: Topology, cfg: Config)
    requires ValidTopology(g)
    ensures AlwaysDiesOut(g, cfg) <==> Acyclic(g)
    ensures (forall s :: Shaped(g, s) ==> DiesOut(g, s, cfg)) <==> Acyclic(g)
  {
    if Acyclic(g) {
      var rank := AcyclicHasRanks(g);
      forall s | Shaped(g, s)
        ensures DiesOut(g, s, cfg)
      {
        AcyclicDiesOut(g, rank, s, cfg);
      }
    } else {
      var c :| Cycle(g, c);
      var s := CycleDoesNot(g, Uniform(g, Text([])), c, cfg);
    }
  }
}
