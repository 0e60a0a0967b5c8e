/**
 Why a flood's bound is a bound per window: one content goes round a dial cycle without end when each
 lap outlasts the window, since by then the gates have opened again
 (src/internal/websocket/handlers.go:132).
 */
module LateLaps {
  import opened Prelude
  import opened Codec
  import opened Gates
  import opened Watching
  import opened ServerSpec
  import opened Network
  import opened NetworkLoad
  import opened FreshNetwork
  import opened Flood
  import opened DialGraph
  import opened RelayStops

  /** Content a waits on the i-th link of the cycle, and no gate on it is ahead of the clock. */
  predicate Circling(g: Topology, s: State, c: seq<nat>, i: nat, a: Content)
    requires Shaped(g, s) && Cycle(g, c)
  {
    && i < |c|
    && forall j :: 0 <= j < |c| ==>
         && s.wires[c[j]].serving.Idle? && s.wires[c[j]].peer
         && s.wires[c[j]].up == (if j == i then [a] else [])
         && var at := s.nodes[g.links[c[j]].server].gate.at; at.At? ==> at.time <= s.now
  }

  lemma HoppedOn(g: Topology, s: State, c: seq<nat>, i: nat, a: Content, t: State)
    requires Shaped(g, s) && Shaped(g, t) && Cycle(g, c) && Circling(g, s, c, i, a) && Hopped(g, s, c[i], t)
    ensures Circling(g, t, c, NextOn(c, i), a)
  {
    assert s.wires[c[i]].up[0] == a;
    forall j | 0 <= j < |c|
      ensures t.wires[c[j]].serving.Idle? && t.wires[c[j]].peer
      ensures t.wires[c[j]].up == if j == NextOn(c, i) then [a] else []
      ensures var at := t.nodes[g.links[c[j]].server].gate.at; at.At? ==> at.time <= t.now
    {
      OnlyNextDials(g, c, i, j);
      assert s.wires[c[j]].up == if j == i then [a] else [];
    }
  }

  function Late(s: State, cfg: Config): State {
    s.(now := s.now + if cfg.window > 0 then cfg.window else 0)
  }

  /** Once the window has passed the gate ahead is open. */
  lemma LateIsOpen(g: Topology, s: State, c: seq<nat>, i: nat, a: Content, cfg: Config)
    requires Shaped(g, s) && Cycle(g, c) && Circling(g, s, c, i, a)
    ensures Circling(g, Late(s, cfg), c, i, a)
    ensures Late(s, cfg).wires[c[i]].up == [a] && Late(s, cfg).wires[c[i]].serving.Idle?
    ensures !IsEcho(Late(s, cfg).nodes[g.links[c[i]].server].gate, KeyOf(a), Late(s, cfg).now, cfg.window)
  {
  }

  lemma OpenHop(g: Topology, s: State, c: seq<nat>, i: nat, a: Content, cfg: Config) returns (actions: seq<Action>)
    requires Shaped(g, s) && Cycle(g, c) && Circling(g, s, c, i, a) && a.Text? && Stable(a)
    requires s.wires[c[i]].up == [a] && s.wires[c[i]].serving.Idle?
    requires !IsEcho(s.nodes[g.links[c[i]].server].gate, KeyOf(a), s.now, cfg.window)
    ensures Run(g, s, actions, cfg) && NothingNew(actions) && Deliveries(actions) == 1
    ensures Circling(g, After(g, s, actions, cfg), c, NextOn(c, i), a)
  {
    actions := Hop(g, s, c[i], cfg);
    HoppedOn(g, s, c, i, a, After(g, s, actions, cfg));
  }

  /** Wait until every window has passed, then hop. */
  lemma LateHop(g: Topology, s: State, c: seq<nat>, i: nat, a: Content, cfg: Config) returns (actions: seq<Action>)
    requires Shaped(g, s) && Cycle(g, c) && Circling(g, s, c, i, a) && a.Text? && Stable(a)
    ensures Run(g, s, actions, cfg) && NothingNew(actions) && Deliveries(actions) == 1
    ensures Circling(g, After(g, s, actions, cfg), c, NextOn(c, i), a)
  {
    LateIsOpen(g, s, c, i, a, cfg);
    var hop := OpenHop(g, Late(s, cfg), c, i, a, cfg);
    var wait := Tick(if cfg.window > 0 then cfg.window else 0);
    assert Do(g, s, wait, cfg) == Late(s, cfg);
    RunFirst(g, s, wait, hop, cfg);
    actions := [wait] + hop;
  }

  lemma {:induction false} LateHops(g: Topology, s: State, c: seq<nat>, i: nat, a: Content, n: nat, cfg: Config)
    returns (actions: seq<Action>)
    requires Shaped(g, s) && Cycle(g, c) && Circling(g, s, c, i, a) && a.Text? && Stable(a)
    ensures Run(g, s, actions, cfg) && NothingNew(actions) && Deliveries(actions) == n
    decreases n
  {
    if n == 0 {
      actions := [];
    } else {
      var first := LateHop(g, s, c, i, a, cfg);
      var rest := LateHops(g, After(g, s, first, cfg), c, NextOn(c, i), a, n - 1, cfg);
      RunConcat(g, s, first, rest, cfg);
      DeliveriesConcat(first, rest);
      actions := first + rest;
    }
  }

  lemma SentCircles(g: Topology, s: State, t: State, c: seq<nat>, a: Content)
    requires Shaped(g, s) && Shaped(g, t) && Cycle(g, c) && AllLinked(s)
    requires forall n :: 0 <= n < |s.nodes| ==> s.nodes[n].gate == CLOSED
    requires SentOn(g, s, t, g.links[c[0]].dialer, a)
    ensures Circling(g, t, c, 0, a)
  {
    forall j | 0 <= j < |c|
      ensures t.wires[c[j]].serving.Idle? && t.wires[c[j]].peer
      ensures t.wires[c[j]].up == if j == 0 then [a] else []
      ensures t.nodes[g.links[c[j]].server].gate.at.Never?
    {
      OnlyNextDials(g, c, |c| - 1, j);
      assert s.wires[c[j]] == LINKED;
    }
  }

  /** One send on a linked, quiet network leaves nothing but that content about. */
  lemma OnlySent(g: Topology, s: State, n: nat, a: Content, cfg: Config)
    requires Shaped(g, s) && AllLinked(s) && s.accepts == [] && n < |s.nodes| && Stable(a)
    requires forall m :: 0 <= m < |s.nodes| ==> FreshNode(s.nodes[m])
    ensures var t := Do(g, s, Send(n, a), cfg);
            OnlyMessages(t) && OneKey(t, KeyOf(a))
  {
    var t := Do(g, s, Send(n, a), cfg);
    assert Carries(a, KeyOf(a));
    forall l | 0 <= l < |s.wires|
      ensures WireCarries(s.wires[l], KeyOf(a))
    {
      assert s.wires[l] == LINKED;
    }
    PublishCarries(g, s.wires, n, a, Echoing(s.wires, KeyOf(a), s.now, cfg), KeyOf(a));
    forall m | 0 <= m < |t.nodes|
      ensures NodeCarries(t.nodes[m], KeyOf(a)) && t.nodes[m].firing.None? && !Unseen(t.nodes[m])
    {
      assert FreshNode(s.nodes[m]);
    }
  }

  /**
   From any fresh network with a cycle: link up and send one text. What is then in flight is all of
   one key, as for the bound within a window, and yet deliveries are not bounded once time may pass.
   */
  lemma WindowIsNeeded(g: Topology, s0: State, c: seq<nat>, a: Content, cfg: Config) returns (start: seq<Action>)
    requires Fresh(g, s0) && Cycle(g, c) && a.Text? && Stable(a)
    ensures Run(g, s0, start, cfg)
    ensures var s := After(g, s0, start, cfg);
            OnlyMessages(s) && OneKey(s, KeyOf(a)) && !DiesOut(g, s, cfg)
  {
    var link := LinkAll(g, s0, cfg);
    var linked := After(g, s0, link, cfg);
    var n := g.links[c[0]].dialer;
    forall m | 0 <= m < |linked.nodes|
      ensures linked.nodes[m].gate == CLOSED && FreshNode(linked.nodes[m])
    {
      assert FreshNode(s0.nodes[m]);
    }
    var s := Do(g, linked, Send(n, a), cfg);
    SendEffect(g, linked, n, a, cfg);
    SentCircles(g, linked, s, c, a);
    OnlySent(g, linked, n, a, cfg);
    LastStep(g, linked, Send(n, a), cfg);
    RunConcat(g, s0, link, [Send(n, a)], cfg);
    start := link + [Send(n, a)];
    NoBoundHolds(g, s, c, a, cfg);
  }

  lemma NoBoundHolds(g: Topology, s: State, c: seq<nat>, a: Content, cfg: Config)
    requires Shaped(g, s) && Cycle(g, c) && Circling(g, s, c, 0, a) && a.Text? && Stable(a)
    ensures !DiesOut(g, s, cfg)
  {
    forall bound: nat
      ensures !RelayStops.Bounds(g, s, cfg, bound)
    {
      var actions := LateHops(g, s, c, 0, a, bound + 1, cfg);
      assert Run(g, s, actions, cfg) && NothingNew(actions) && Deliveries(actions) > bound;
    }
  }
}
