/**
 What the messages in flight can still cost. Each daemon is given a weight, the cost of a message
 on its way to it; relaying at a daemon then costs the weights of those it dials plus one for each
 of its clients. Every step of the network changes the total load in a way that can be bounded
 step by step.
 */
module NetworkLoad {
  import opened Prelude
  import opened Codec
  import opened Gates
  import opened Watching
  import opened ServerSpec
  import opened Network

  /** How the load is counted: a weight per daemon, and what each step after acceptance costs. */
  datatype Tariff = Tariff(weight: seq<nat>, step: nat)

  predicate Fits(g: Topology, r: Tariff) {
    ValidTopology(g) && |r.weight| == g.nodes && forall n :: 0 <= n < g.nodes ==> r.weight[n] >= 1
  }

  /** The cost of one fan-out at daemon n over the first k links. */
  function CostUpTo(g: Topology, r: Tariff, n: nat, k: nat): nat
    requires Fits(g, r) && k <= |g.links|
  {
    if k == 0 then 0 else CostUpTo(g, r, n, k - 1) + LinkCost(r, n, g.links[k - 1])
  }

  function LinkCost(r: Tariff, n: nat, link: Link): nat
    requires link.server < |r.weight|
  {
    (if link.dialer == n then r.weight[link.server] else 0) + (if link.server == n then 1 else 0)
  }

  function Cost(g: Topology, r: Tariff, n: nat): nat
    requires Fits(g, r)
  {
    CostUpTo(g, r, n, |g.links|)
  }

  function Times(n: nat, weight: nat): nat {
    n * weight
  }

  lemma TimesStep(n: nat, weight: nat)
    ensures Times(n + 1, weight) == Times(n, weight) + weight
  {
  }

  function ServingLoad(g: Topology, r: Tariff, n: nat, serving: Serving): nat
    requires Fits(g, r)
  {
    match serving
    case Idle => 0
    case Accepted(_) => Cost(g, r, n) + 2 * r.step
    case Written(_) => Cost(g, r, n) + r.step
  }

  function WireLoad(g: Topology, r: Tariff, l: nat, w: Wire): nat
    requires Fits(g, r) && l < |g.links|
  {
    Times(|w.up|, r.weight[g.links[l].server]) + |w.down| + ServingLoad(g, r, g.links[l].server, w.serving)
  }

  predicate Unseen(node: Node) {
    KeyOf(node.clip) != node.watch.last
  }

  function NodeLoad(g: Topology, r: Tariff, n: nat, node: Node): nat
    requires Fits(g, r)
  {
    (if node.firing.Some? then Cost(g, r, n) + r.step else 0)
    + (if Unseen(node) then Cost(g, r, n) + r.step else 0)
  }

  function WiresLoad(g: Topology, r: Tariff, wires: seq<Wire>, k: nat): nat
    requires Fits(g, r) && |wires| == |g.links| && k <= |wires|
  {
    if k == 0 then 0 else WiresLoad(g, r, wires, k - 1) + WireLoad(g, r, k - 1, wires[k - 1])
  }

  function NodesLoad(g: Topology, r: Tariff, nodes: seq<Node>, k: nat): nat
    requires Fits(g, r) && k <= |nodes|
  {
    if k == 0 then 0 else NodesLoad(g, r, nodes, k - 1) + NodeLoad(g, r, k - 1, nodes[k - 1])
  }

  function Load(g: Topology, r: Tariff, s: State): nat
    requires Fits(g, r) && Shaped(g, s)
  {
    WiresLoad(g, r, s.wires, |s.wires|) + NodesLoad(g, r, s.nodes, |s.nodes|)
  }

  lemma {:induction false} WireChanged(g: Topology, r: Tariff, wires: seq<Wire>, l: nat, w: Wire, k: nat)
    requires Fits(g, r) && |wires| == |g.links| && k <= |wires| && l < |wires|
    ensures WiresLoad(g, r, wires[l := w], k)
         == WiresLoad(g, r, wires, k) + if l < k then WireLoad(g, r, l, w) - WireLoad(g, r, l, wires[l]) else 0
  {
    if k > 0 {
      WireChanged(g, r, wires, l, w, k - 1);
      assert wires[l := w][k - 1] == if l == k - 1 then w else wires[k - 1];
    }
  }

  lemma LastNode(g: Topology, r: Tariff, nodes: seq<Node>, k: nat)
    requires Fits(g, r) && 0 < k <= |nodes|
    ensures NodesLoad(g, r, nodes, k) == NodesLoad(g, r, nodes, k - 1) + NodeLoad(g, r, k - 1, nodes[k - 1])
  {
  }

  lemma {:induction false} NodesAgree(g: Topology, r: Tariff, nodes: seq<Node>, others: seq<Node>, k: nat)
    requires Fits(g, r) && k <= |nodes| && k <= |others|
    requires forall i :: 0 <= i < k ==> nodes[i] == others[i]
    ensures NodesLoad(g, r, nodes, k) == NodesLoad(g, r, others, k)
  {
    if k > 0 {
      NodesAgree(g, r, nodes, others, k - 1);
    }
  }

  lemma {:induction false} NodeDiffers(g: Topology, r: Tariff, nodes: seq<Node>, others: seq<Node>, n: nat, k: nat)
    requires Fits(g, r) && n < k <= |nodes| && k <= |others|
    requires forall i :: 0 <= i < k && i != n ==> nodes[i] == others[i]
    ensures NodesLoad(g, r, others, k)
         == NodesLoad(g, r, nodes, k) + NodeLoad(g, r, n, others[n]) - NodeLoad(g, r, n, nodes[n])
  {
    LastNode(g, r, nodes, k);
    LastNode(g, r, others, k);
    if n == k - 1 {
      NodesAgree(g, r, nodes, others, k - 1);
    } else {
      NodeDiffers(g, r, nodes, others, n, k - 1);
    }
  }

  lemma NodeChanged(g: Topology, r: Tariff, nodes: seq<Node>, n: nat, node: Node, k: nat)
    requires Fits(g, r) && k <= |nodes| && n < |nodes|
    ensures NodesLoad(g, r, nodes[n := node], k)
         == NodesLoad(g, r, nodes, k) + if n < k then NodeLoad(g, r, n, node) - NodeLoad(g, r, n, nodes[n]) else 0
  {
    if n < k {
      NodeDiffers(g, r, nodes, nodes[n := node], n, k);
    } else {
      NodesAgree(g, r, nodes, nodes[n := node], k);
    }
  }

  lemma FeedLoad(g: Topology, r: Tariff, l: nat, w: Wire, n: nat, c: Content, skip: bool)
    requires Fits(g, r) && l < |g.links|
    ensures WireLoad(g, r, l, Feed(g.links[l], w, n, c, skip)) <= WireLoad(g, r, l, w) + LinkCost(r, n, g.links[l])
  {
    TimesStep(|w.up|, r.weight[g.links[l].server]);
  }

  lemma {:induction false} WiresGrow(g: Topology, r: Tariff, wires: seq<Wire>, fed: seq<Wire>, n: nat, k: nat)
    requires Fits(g, r) && |wires| == |fed| == |g.links| && k <= |wires|
    requires forall l :: 0 <= l < k ==>
               WireLoad(g, r, l, fed[l]) <= WireLoad(g, r, l, wires[l]) + LinkCost(r, n, g.links[l])
    ensures WiresLoad(g, r, fed, k) <= WiresLoad(g, r, wires, k) + CostUpTo(g, r, n, k)
  {
    if k > 0 {
      WiresGrow(g, r, wires, fed, n, k - 1);
    }
  }

  /** A fan-out adds no more than its cost. */
  lemma PublishLoad(g: Topology, r: Tariff, wires: seq<Wire>, n: nat, c: Content, skipped: set<nat>)
    requires Fits(g, r) && |wires| == |g.links|
    ensures WiresLoad(g, r, Publish(g, wires, n, c, skipped), |wires|)
         <= WiresLoad(g, r, wires, |wires|) + Cost(g, r, n)
  {
    var fed := Publish(g, wires, n, c, skipped);
    forall l | 0 <= l < |wires|
      ensures WireLoad(g, r, l, fed[l]) <= WireLoad(g, r, l, wires[l]) + LinkCost(r, n, g.links[l])
    {
      FeedLoad(g, r, l, wires[l], n, c, l in skipped);
    }
    WiresGrow(g, r, wires, fed, n, |wires|);
  }

  // Step by step

  predicate Accepts(g: Topology, s: State, a: Action, cfg: Config)
    requires Shaped(g, s) && Enabled(g, s, a)
  {
    a.DeliverUp? &&
    match Received(s.wires[a.l].up[0])
    case None => false
    case Some(c) => !IsEcho(s.nodes[g.links[a.l].server].gate, KeyOf(c), s.now, cfg.window)
  }

  /** What a new clip can add: somebody copies or sends something. */
  function Injected(g: Topology, r: Tariff, a: Action): nat
    requires Fits(g, r)
  {
    match a
    case Copy(n, _) => Cost(g, r, n) + r.step
    case Send(n, _) => Cost(g, r, n)
    case _ => 0
  }

  /** What a step is worth: a delivery one, the rest of a clip's way `step` each. */
  function Worth(r: Tariff, a: Action): nat {
    match a
    case DeliverUp(_) => 1
    case DeliverDown(_, _) => 1
    case WriteClip(_, _) => r.step
    case Relay(_) => r.step
    case Announce(_) => r.step
    case _ => 0
  }

  lemma PopUp(g: Topology, r: Tariff, l: nat, w: Wire, note: Note)
    requires Fits(g, r) && l < |g.links| && w.up != []
    ensures WireLoad(g, r, l, w.(up := w.up[1..], note := note)) + r.weight[g.links[l].server] == WireLoad(g, r, l, w)
  {
    TimesStep(|w.up| - 1, r.weight[g.links[l].server]);
  }

  lemma DeliverUpLoad(g: Topology, r: Tariff, s: State, l: nat, cfg: Config)
    requires Fits(g, r) && Shaped(g, s) && Enabled(g, s, DeliverUp(l))
    ensures Load(g, r, Do(g, s, DeliverUp(l), cfg)) + r.weight[g.links[l].server]
         == Load(g, r, s)
          + if Accepts(g, s, DeliverUp(l), cfg) then Cost(g, r, g.links[l].server) + 2 * r.step else 0
  {
    var w, n, t := s.wires[l], g.links[l].server, Do(g, s, DeliverUp(l), cfg);
    PopUp(g, r, l, w, t.wires[l].note);
    WireChanged(g, r, s.wires, l, t.wires[l], |s.wires|);
    NodeChanged(g, r, s.nodes, n, t.nodes[n], |s.nodes|);
    assert t.wires == s.wires[l := t.wires[l]];
    assert t.nodes == s.nodes[n := t.nodes[n]];
  }

  lemma DeliverDownLoad(g: Topology, r: Tariff, s: State, l: nat, ok: bool, cfg: Config)
    requires Fits(g, r) && Shaped(g, s) && Enabled(g, s, DeliverDown(l, ok))
    ensures Load(g, r, Do(g, s, DeliverDown(l, ok), cfg)) + 1 <= Load(g, r, s)
  {
    var n, t := g.links[l].dialer, Do(g, s, DeliverDown(l, ok), cfg);
    assert t.wires[l] == s.wires[l].(down := s.wires[l].down[1..]);
    assert NodeLoad(g, r, n, t.nodes[n]) <= NodeLoad(g, r, n, s.nodes[n]);
    WireChanged(g, r, s.wires, l, t.wires[l], |s.wires|);
    NodeChanged(g, r, s.nodes, n, t.nodes[n], |s.nodes|);
    assert t.wires == s.wires[l := t.wires[l]];
    assert t.nodes == s.nodes[n := t.nodes[n]];
  }

  lemma WriteClipLoad(g: Topology, r: Tariff, s: State, l: nat, ok: bool, cfg: Config)
    requires Fits(g, r) && Shaped(g, s) && Enabled(g, s, WriteClip(l, ok))
    ensures Load(g, r, Do(g, s, WriteClip(l, ok), cfg)) + r.step <= Load(g, r, s)
  {
    var n, t := g.links[l].server, Do(g, s, WriteClip(l, ok), cfg);
    WireChanged(g, r, s.wires, l, t.wires[l], |s.wires|);
    NodeChanged(g, r, s.nodes, n, t.nodes[n], |s.nodes|);
    assert t.wires == s.wires[l := t.wires[l]];
    assert t.nodes == s.nodes[n := t.nodes[n]];
  }

  lemma RelayLoad(g: Topology, r: Tariff, s: State, l: nat, cfg: Config)
    requires Fits(g, r) && Shaped(g, s) && Enabled(g, s, Relay(l))
    ensures Load(g, r, Do(g, s, Relay(l), cfg)) + r.step <= Load(g, r, s)
  {
    var w, n := s.wires[l], g.links[l].server;
    var wires := s.wires[l := w.(serving := Idle)];
    WireChanged(g, r, s.wires, l, w.(serving := Idle), |s.wires|);
    PublishLoad(g, r, wires, n, w.serving.c, {l});
  }

  lemma AnnounceLoad(g: Topology, r: Tariff, s: State, n: nat, cfg: Config)
    requires Fits(g, r) && Shaped(g, s) && Enabled(g, s, Announce(n))
    ensures Load(g, r, Do(g, s, Announce(n), cfg)) + r.step <= Load(g, r, s)
  {
    var c := s.nodes[n].firing.value;
    NodeChanged(g, r, s.nodes, n, s.nodes[n].(firing := None), |s.nodes|);
    PublishLoad(g, r, s.wires, n, c, Echoing(s.wires, KeyOf(c), s.now, cfg));
  }

  /** The remaining steps add nothing but what is newly copied or sent. */
  lemma QuietLoad(g: Topology, r: Tariff, s: State, a: Action, cfg: Config)
    requires Fits(g, r) && Shaped(g, s) && Enabled(g, s, a)
    requires !IsDelivery(a) && !a.WriteClip? && !a.Relay? && !a.Announce?
    ensures Load(g, r, Do(g, s, a, cfg)) <= Load(g, r, s) + Injected(g, r, a)
  {
    var t := Do(g, s, a, cfg);
    match a
    case Check(n, _) =>
      NodeChanged(g, r, s.nodes, n, t.nodes[n], |s.nodes|);
      assert t.nodes == s.nodes[n := t.nodes[n]];
    case Copy(n, _) => NodeChanged(g, r, s.nodes, n, t.nodes[n], |s.nodes|);
    case Send(n, c) => PublishLoad(g, r, s.wires, n, c, Echoing(s.wires, KeyOf(c), s.now, cfg));
    case LoseUp(l) =>
      PopUp(g, r, l, s.wires[l], s.wires[l].note);
      WireChanged(g, r, s.wires, l, t.wires[l], |s.wires|);
    case LoseDown(l) => WireChanged(g, r, s.wires, l, t.wires[l], |s.wires|);
    case SetClient(l, _) => WireChanged(g, r, s.wires, l, t.wires[l], |s.wires|);
    case SetPeer(l, _) => WireChanged(g, r, s.wires, l, t.wires[l], |s.wires|);
    case Tick(_) =>
  }

  /** All in all: every step pays for itself, except that an accepted clip costs what its relay will. */
  lemma StepLoad(g: Topology, r: Tariff, s: State, a: Action, cfg: Config)
    requires Fits(g, r) && Shaped(g, s) && Enabled(g, s, a)
    ensures Accepts(g, s, a, cfg) ==>
              var n := g.links[a.l].server;
              Load(g, r, Do(g, s, a, cfg)) + r.weight[n] == Load(g, r, s) + Cost(g, r, n) + 2 * r.step
    ensures !Accepts(g, s, a, cfg) ==>
              Load(g, r, Do(g, s, a, cfg)) + Worth(r, a) <= Load(g, r, s) + Injected(g, r, a)
  {
    match a
    case DeliverUp(l) => DeliverUpLoad(g, r, s, l, cfg);
    case DeliverDown(l, ok) => DeliverDownLoad(g, r, s, l, ok, cfg);
    case WriteClip(l, ok) => WriteClipLoad(g, r, s, l, ok, cfg);
    case Relay(l) => RelayLoad(g, r, s, l, cfg);
    case Announce(n) => AnnounceLoad(g, r, s, n, cfg);
    case _ => QuietLoad(g, r, s, a, cfg);
  }

  // Whole runs

  function TotalWorth(r: Tariff, actions: seq<Action>): nat
    decreases |actions|
  {
    if actions == [] then 0 else Worth(r, actions[0]) + TotalWorth(r, actions[1..])
  }

  function TotalInjected(g: Topology, r: Tariff, actions: seq<Action>): nat
    requires Fits(g, r)
    decreases |actions|
  {
    if actions == [] then 0 else Injected(g, r, actions[0]) + TotalInjected(g, r, actions[1..])
  }

  lemma {:induction false} DeliveriesAreWorth(r: Tariff, actions: seq<Action>)
    ensures Deliveries(actions) <= TotalWorth(r, actions)
    decreases |actions|
  {
    if actions != [] {
      DeliveriesAreWorth(r, actions[1..]);
    }
  }

  predicate NothingNew(actions: seq<Action>) {
    forall i :: 0 <= i < |actions| ==> !actions[i].Copy? && !actions[i].Send?
  }

  lemma {:induction false} NothingNewNothingInjected(g: Topology, r: Tariff, actions: seq<Action>)
    requires Fits(g, r) && NothingNew(actions)
    ensures TotalInjected(g, r, actions) == 0
    decreases |actions|
  {
    if actions != [] {
      assert !actions[0].Copy? && !actions[0].Send?;
      assert forall i :: 0 <= i < |actions| - 1 ==> actions[1..][i] == actions[i + 1];
      NothingNewNothingInjected(g, r, actions[1..]);
    }
  }
}
