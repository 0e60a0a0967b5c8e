/**
 One content in flight, any dial graph: within one echo window every daemon accepts it at most
 once, so it stops after boundedly many deliveries (src/internal/websocket/handlers.go:122-145).
 */
module Flood {
  import opened Prelude
  import opened Codec
  import opened Gates
  import opened Watching
  import opened ServerSpec
  import opened Network
  import opened NetworkLoad

  /** Whatever the receiver makes of this content has the key k. */
  predicate Carries(c: Content, k: Key) {
    Received(c).Some? ==> KeyOf(Received(c).value) == k
  }

  predicate WireCarries(w: Wire, k: Key) {
    && (forall i :: 0 <= i < |w.up| ==> Carries(w.up[i], k))
    && (forall i :: 0 <= i < |w.down| ==> Carries(w.down[i], k))
    && (!w.serving.Idle? ==> Stable(w.serving.c) && KeyOf(w.serving.c) == k)
  }

  predicate NodeCarries(node: Node, k: Key) {
    && (node.firing.Some? ==> Carries(node.firing.value, k))
    && (Unseen(node) ==> Carries(node.clip, k))
  }

  predicate AllCarry(wires: seq<Wire>, k: Key) {
    forall l :: 0 <= l < |wires| ==> WireCarries(wires[l], k)
  }

  /** Everything in flight, being announced or not yet seen by a watcher has the key k. */
  predicate OneKey(s: State, k: Key) {
    && AllCarry(s.wires, k)
    && (forall n :: 0 <= n < |s.nodes| ==> NodeCarries(s.nodes[n], k))
  }

  /** Daemons that accepted since `start` accepted once, and their gates still know. */
  predicate SpentOnce(s: State, k: Key, start: int) {
    && start <= s.now
    && Distinct(s.accepts)
    && forall i :: 0 <= i < |s.accepts| ==>
         var n := s.accepts[i];
         n < |s.nodes| && s.nodes[n].gate.key == k && s.nodes[n].gate.at.At?
         && start <= s.nodes[n].gate.at.time <= s.now
  }

  predicate OnlyKey(a: Action, k: Key) {
    a.Copy? || a.Send? ==> Carries(a.c, k)
  }

  lemma FeedCarries(link: Link, w: Wire, n: nat, c: Content, skip: bool, k: Key)
    requires WireCarries(w, k) && Carries(c, k)
    ensures WireCarries(Feed(link, w, n, c, skip), k)
  {
  }

  lemma PublishCarries(g: Topology, wires: seq<Wire>, n: nat, c: Content, skipped: set<nat>, k: Key)
    requires |wires| == |g.links| && Carries(c, k) && AllCarry(wires, k)
    ensures AllCarry(Publish(g, wires, n, c, skipped), k)
  {
    var fed := Publish(g, wires, n, c, skipped);
    forall l | 0 <= l < |fed|
      ensures WireCarries(fed[l], k)
    {
      assert WireCarries(wires[l], k);
      FeedCarries(g.links[l], wires[l], n, c, l in skipped, k);
    }
  }

  lemma OneWireCarries(wires: seq<Wire>, l: nat, w: Wire, k: Key)
    requires AllCarry(wires, k) && l < |wires| && WireCarries(w, k)
    ensures AllCarry(wires[l := w], k)
  {
  }

  lemma DeliverUpCarries(g: Topology, s: State, l: nat, k: Key, cfg: Config)
    requires Shaped(g, s) && Enabled(g, s, DeliverUp(l)) && AllCarry(s.wires, k)
    ensures AllCarry(Do(g, s, DeliverUp(l), cfg).wires, k)
  {
    var w, t := s.wires[l], Do(g, s, DeliverUp(l), cfg);
    assert WireCarries(w, k) && Carries(w.up[0], k);
    assert WireCarries(t.wires[l], k);
    OneWireCarries(s.wires, l, t.wires[l], k);
    assert t.wires == s.wires[l := t.wires[l]];
  }

  /** Steps that only touch one wire, and only shorten its queues or move its handler on. */
  lemma LocalStepCarries(g: Topology, s: State, a: Action, k: Key, cfg: Config)
    requires Shaped(g, s) && Enabled(g, s, a) && AllCarry(s.wires, k)
    requires a.WriteClip? || a.DeliverDown? || a.LoseUp? || a.LoseDown? || a.SetClient? || a.SetPeer?
    ensures AllCarry(Do(g, s, a, cfg).wires, k)
  {
    var t := Do(g, s, a, cfg);
    assert WireCarries(s.wires[a.l], k);
    assert WireCarries(t.wires[a.l], k);
    OneWireCarries(s.wires, a.l, t.wires[a.l], k);
    assert t.wires == s.wires[a.l := t.wires[a.l]];
  }

  lemma RelayCarries(g: Topology, s: State, l: nat, k: Key, cfg: Config)
    requires Shaped(g, s) && Enabled(g, s, Relay(l)) && AllCarry(s.wires, k)
    ensures AllCarry(Do(g, s, Relay(l), cfg).wires, k)
  {
    var w := s.wires[l];
    OneWireCarries(s.wires, l, w.(serving := Idle), k);
    PublishCarries(g, s.wires[l := w.(serving := Idle)], g.links[l].server, w.serving.c, {l}, k);
  }

  lemma WireCarriesStep(g: Topology, s: State, a: Action, k: Key, cfg: Config)
    requires Shaped(g, s) && Enabled(g, s, a) && OneKey(s, k) && OnlyKey(a, k)
    ensures AllCarry(Do(g, s, a, cfg).wires, k)
  {
    match a
    case DeliverUp(l) => DeliverUpCarries(g, s, l, k, cfg);
    case Relay(l) => RelayCarries(g, s, l, k, cfg);
    case Check(_, _) =>
    case Announce(n) =>
      var c := s.nodes[n].firing.value;
      assert NodeCarries(s.nodes[n], k);
      PublishCarries(g, s.wires, n, c, Echoing(s.wires, KeyOf(c), s.now, cfg), k);
    case Tick(_) =>
    case Copy(_, _) =>
    case Send(n, c) => PublishCarries(g, s.wires, n, c, Echoing(s.wires, KeyOf(c), s.now, cfg), k);
    case _ => LocalStepCarries(g, s, a, k, cfg);
  }

  /** What steps do to a daemon, one at a time. */
  lemma NodeKeepsCarrying(node: Node, c: Content, ok: bool, k: Key)
    requires NodeCarries(node, k)
    ensures NodeCarries(LocalWrite(node, c, ok), k)
    ensures node.firing.None? ==> NodeCarries(Observed(node), k)
    ensures NodeCarries(node.(firing := None), k)
    ensures Carries(c, k) ==> NodeCarries(node.(clip := c), k)
  {
  }

  lemma NodeCarriesStep(g: Topology, s: State, a: Action, k: Key, cfg: Config)
    requires Shaped(g, s) && Enabled(g, s, a) && OneKey(s, k) && OnlyKey(a, k)
    ensures forall n :: 0 <= n < |s.nodes| ==> NodeCarries(Do(g, s, a, cfg).nodes[n], k)
  {
    var t := Do(g, s, a, cfg);
    forall n | 0 <= n < |s.nodes|
      ensures NodeCarries(t.nodes[n], k)
    {
      var node := s.nodes[n];
      assert NodeCarries(node, k);
      match a
      case DeliverUp(l) => assert t.nodes[n].(gate := node.gate) == node;
      case WriteClip(l, ok) => NodeKeepsCarrying(node, s.wires[l].serving.c, ok, k);
      case DeliverDown(l, ok) =>
        if Received(s.wires[l].down[0]).Some? {
          NodeKeepsCarrying(node, Received(s.wires[l].down[0]).value, ok, k);
        }
      case Check(_, _) => NodeKeepsCarrying(node, node.clip, true, k);
      case Announce(_) => NodeKeepsCarrying(node, node.clip, true, k);
      case Copy(_, c) => NodeKeepsCarrying(node, c, true, k);
      case _ => assert t.nodes[n] == node;
    }
  }

  /** A gate that accepted the key within the window will not accept it again. */
  lemma SpentGateEchoes(g: Topology, s: State, l: nat, k: Key, start: int, cfg: Config)
    requires Shaped(g, s) && Enabled(g, s, DeliverUp(l)) && OneKey(s, k) && SpentOnce(s, k, start)
    requires s.now - start < cfg.window && Accepts(g, s, DeliverUp(l), cfg)
    ensures g.links[l].server !in s.accepts
  {
    assert WireCarries(s.wires[l], k);
    assert Carries(s.wires[l].up[0], k);
  }

  lemma OnlyAcceptsMoveGates(g: Topology, s: State, a: Action, cfg: Config)
    requires Shaped(g, s) && Enabled(g, s, a) && !Accepts(g, s, a, cfg)
    ensures var t := Do(g, s, a, cfg);
            t.accepts == s.accepts && t.now >= s.now
            && forall n :: 0 <= n < |s.nodes| ==> t.nodes[n].gate == s.nodes[n].gate
  {
    match a
    case DeliverUp(_) =>
    case WriteClip(_, _) =>
    case DeliverDown(_, _) =>
    case Check(_, _) =>
    case Announce(_) =>
    case Copy(_, _) =>
    case _ =>
  }

  lemma SpentStep(g: Topology, s: State, a: Action, k: Key, start: int, cfg: Config)
    requires Shaped(g, s) && Enabled(g, s, a) && OneKey(s, k) && SpentOnce(s, k, start)
    requires s.now - start < cfg.window
    ensures SpentOnce(Do(g, s, a, cfg), k, start)
    ensures Do(g, s, a, cfg).accepts == if Accepts(g, s, a, cfg) then s.accepts + [g.links[a.l].server] else s.accepts
  {
    if Accepts(g, s, a, cfg) {
      SpentGateEchoes(g, s, a.l, k, start, cfg);
      assert WireCarries(s.wires[a.l], k);
      assert Carries(s.wires[a.l].up[0], k);
    } else {
      OnlyAcceptsMoveGates(g, s, a, cfg);
    }
  }

  // The bound

  /** What the daemons that have not accepted yet could still cost. */
  function Unspent(g: Topology, r: Tariff, accepts: seq<nat>, k: nat): nat
    requires Fits(g, r) && k <= g.nodes
  {
    if k == 0 then 0
    else Unspent(g, r, accepts, k - 1) + if k - 1 in accepts then 0 else Cost(g, r, k - 1) + 2 * r.step
  }

  lemma {:induction false} UnspentAfter(g: Topology, r: Tariff, accepts: seq<nat>, n: nat, k: nat)
    requires Fits(g, r) && k <= g.nodes && n !in accepts
    ensures Unspent(g, r, accepts + [n], k) + (if n < k then Cost(g, r, n) + 2 * r.step else 0)
         == Unspent(g, r, accepts, k)
  {
    if k > 0 {
      UnspentAfter(g, r, accepts, n, k - 1);
    }
  }

  /** Every message weighs one. */
  function Flat(g: Topology, step: nat): Tariff {
    Tariff(seq(g.nodes, _ => 1), step)
  }

  function Budget(g: Topology, step: nat, s: State): nat
    requires Shaped(g, s)
  {
    Load(g, Flat(g, step), s) + Unspent(g, Flat(g, step), s.accepts, g.nodes)
  }

  lemma BudgetStep(g: Topology, step: nat, s: State, a: Action, k: Key, start: int, cfg: Config)
    requires Shaped(g, s) && Enabled(g, s, a) && OneKey(s, k) && SpentOnce(s, k, start)
    requires s.now - start < cfg.window
    ensures Budget(g, step, Do(g, s, a, cfg)) + Worth(Flat(g, step), a)
         <= Budget(g, step, s) + Injected(g, Flat(g, step), a)
  {
    var r := Flat(g, step);
    StepLoad(g, r, s, a, cfg);
    SpentStep(g, s, a, k, start, cfg);
    if Accepts(g, s, a, cfg) {
      SpentGateEchoes(g, s, a.l, k, start, cfg);
      UnspentAfter(g, r, s.accepts, g.links[a.l].server, g.nodes);
    }
  }

  lemma {:induction false} TimePasses(g: Topology, s: State, actions: seq<Action>, cfg: Config)
    requires Shaped(g, s) && Run(g, s, actions, cfg)
    ensures s.now <= After(g, s, actions, cfg).now
    decreases |actions|
  {
    if actions != [] {
      TimePasses(g, Do(g, s, actions[0], cfg), actions[1..], cfg);
    }
  }

  /**
   Over any run inside one window, in any dial graph, with watchers checking, links failing and
   clients coming and going as they like: daemons accept at most once each, and the work done is
   paid for by the budget at the start and what was newly copied.
   */
  lemma {:induction false} FloodBound(
    g: Topology, step: nat, s: State, actions: seq<Action>, k: Key, start: int, cfg: Config)
    requires Shaped(g, s) && Run(g, s, actions, cfg)
    requires OneKey(s, k) && SpentOnce(s, k, start)
    requires forall i :: 0 <= i < |actions| ==> OnlyKey(actions[i], k)
    requires After(g, s, actions, cfg).now - start < cfg.window
    ensures var t := After(g, s, actions, cfg);
            OneKey(t, k) && SpentOnce(t, k, start)
            && Budget(g, step, t) + TotalWorth(Flat(g, step), actions)
            <= Budget(g, step, s) + TotalInjected(g, Flat(g, step), actions)
    decreases |actions|
  {
    if actions != [] {
      var t := Do(g, s, actions[0], cfg);
      TimePasses(g, s, actions, cfg);
      assert OnlyKey(actions[0], k);
      assert forall i :: 0 <= i < |actions| - 1 ==> actions[1..][i] == actions[i + 1];
      BudgetStep(g, step, s, actions[0], k, start, cfg);
      SpentStep(g, s, actions[0], k, start, cfg);
      WireCarriesStep(g, s, actions[0], k, cfg);
      NodeCarriesStep(g, s, actions[0], k, cfg);
      FloodBound(g, step, t, actions[1..], k, start, cfg);
    }
  }

  // The plain count

  function Messages(wires: seq<Wire>, k: nat): nat
    requires k <= |wires|
  {
    if k == 0 then 0 else Messages(wires, k - 1) + |wires[k - 1].up| + |wires[k - 1].down|
  }

  /** Nothing but messages in flight: no handler is busy and every watcher has seen its clipboard. */
  predicate OnlyMessages(s: State) {
    && (forall l :: 0 <= l < |s.wires| ==> s.wires[l].serving.Idle?)
    && (forall n :: 0 <= n < |s.nodes| ==> s.nodes[n].firing.None? && !Unseen(s.nodes[n]))
    && s.accepts == []
  }

  lemma TimesOne(n: nat)
    ensures Times(n, 1) == n
  {
  }

  lemma {:induction false} LoadIsMessages(g: Topology, s: State, k: nat)
    requires Shaped(g, s) && OnlyMessages(s) && k <= |s.wires|
    ensures WiresLoad(g, Flat(g, 0), s.wires, k) == Messages(s.wires, k)
  {
    if k > 0 {
      LoadIsMessages(g, s, k - 1);
      TimesOne(|s.wires[k - 1].up|);
    }
  }

  lemma {:induction false} QuietNodesWeighNothing(g: Topology, s: State, k: nat)
    requires Shaped(g, s) && OnlyMessages(s) && k <= |s.nodes|
    ensures NodesLoad(g, Flat(g, 0), s.nodes, k) == 0
  {
    if k > 0 {
      QuietNodesWeighNothing(g, s, k - 1);
    }
  }

  lemma {:induction false} UnspentBound(g: Topology, fanOut: nat, k: nat)
    requires ValidTopology(g) && k <= g.nodes
    requires forall n :: 0 <= n < g.nodes ==> Cost(g, Flat(g, 0), n) <= fanOut
    ensures Unspent(g, Flat(g, 0), [], k) <= Times(k, fanOut)
  {
    if k > 0 {
      UnspentBound(g, fanOut, k - 1);
      TimesStep(k - 1, fanOut);
    }
  }

  /**
   Flood termination: a run without new copies that stays inside the window delivers at most the
   messages in flight at the start plus daemons times fan-out, and no daemon accepts twice.
   */
  lemma FloodTermination(g: Topology, s: State, actions: seq<Action>, k: Key, fanOut: nat, cfg: Config)
    requires Shaped(g, s) && Run(g, s, actions, cfg) && NothingNew(actions)
    requires OnlyMessages(s) && OneKey(s, k)
    requires forall n :: 0 <= n < g.nodes ==> Cost(g, Flat(g, 0), n) <= fanOut
    requires After(g, s, actions, cfg).now - s.now < cfg.window
    ensures Deliveries(actions) <= Messages(s.wires, |s.wires|) + Times(g.nodes, fanOut)
    ensures Distinct(After(g, s, actions, cfg).accepts)
  {
    FloodBound(g, 0, s, actions, k, s.now, cfg);
    DeliveriesAreWorth(Flat(g, 0), actions);
    NothingNewNothingInjected(g, Flat(g, 0), actions);
    LoadIsMessages(g, s, |s.wires|);
    QuietNodesWeighNothing(g, s, |s.nodes|);
    UnspentBound(g, fanOut, g.nodes);
  }

  /** Counting every step of a clip's way, not just deliveries: only so many happen before all is quiet. */
  lemma FloodSettles(g: Topology, s: State, actions: seq<Action>, k: Key, cfg: Config)
    requires Shaped(g, s) && Run(g, s, actions, cfg) && NothingNew(actions)
    requires OneKey(s, k) && s.accepts == []
    requires After(g, s, actions, cfg).now - s.now < cfg.window
    ensures TotalWorth(Flat(g, 1), actions) <= Budget(g, 1, s)
  {
    FloodBound(g, 1, s, actions, k, s.now, cfg);
    NothingNewNothingInjected(g, Flat(g, 1), actions);
  }
}
