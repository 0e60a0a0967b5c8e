/**
 A network of daemons that dial each other (src/internal/websocket/peer.go, handlers.go,
 broadcast.go, src/internal/cli/app/app.go). A clip that travels from the dialling daemon to the
 dialled one goes through `handleClipboard`, which writes and relays it; a clip that travels the
 other way goes through `readLoop`, which only writes it.

 Links are pairs of FIFO queues. A message is the content put on the wire; what the other end
 decodes is `Received` (`Codec.WireRoundTrip`). The handler of each link, every watcher and every
 read loop take their steps in any order.
 */
module Network {
  import opened Prelude
  import opened Codec
  import opened Gates
  import opened Watching
  import opened ServerSpec

  /** A configured peer: who dials whom. */
  datatype Link = Link(dialer: nat, server: nat)

  datatype Topology = Topology(nodes: nat, links: seq<Link>)

  /** A daemon: its echo gate, its clipboard, its watcher and a change being announced. */
  datatype Node = Node(gate: Gate, clip: Content, watch: Watch, firing: Option<Content>)

  /** The server-side handler of a link, between accepting a clip and relaying it. */
  datatype Serving = Idle | Accepted(c: Content) | Written(c: Content)

  /** One link: messages to the server and to the dialer, the handler, and who is registered where. */
  datatype Wire = Wire(
    up: seq<Content>,
    down: seq<Content>,
    serving: Serving,
    note: Note,
    client: bool,
    peer: bool
  )

  datatype State = State(
    now: int,
    nodes: seq<Node>,
    wires: seq<Wire>,
    accepts: seq<nat>  // the daemons whose gate let a clip through, in order
  )

  datatype Action =
    | DeliverUp(l: nat)
    | WriteClip(l: nat, ok: bool)
    | Relay(l: nat)
    | DeliverDown(l: nat, ok: bool)
    | Check(n: nat, ok: bool)
    | Announce(n: nat)
    | LoseUp(l: nat)
    | LoseDown(l: nat)
    | SetClient(l: nat, on: bool)
    | SetPeer(l: nat, on: bool)
    | Tick(d: nat)
    | Copy(n: nat, c: Content)  // somebody else changes a daemon's clipboard
    | Send(n: nat, c: Content)  // the local API's /send

  predicate ValidTopology(g: Topology) {
    forall l :: 0 <= l < |g.links| ==> g.links[l].dialer < g.nodes && g.links[l].server < g.nodes
  }

  predicate Shaped(g: Topology, s: State) {
    && ValidTopology(g)
    && |s.nodes| == g.nodes && |s.wires| == |g.links|
  }

  predicate Enabled(g: Topology, s: State, a: Action)
    requires Shaped(g, s)
  {
    match a
    case DeliverUp(l) => l < |s.wires| && s.wires[l].up != [] && s.wires[l].serving.Idle?
    case WriteClip(l, _) => l < |s.wires| && s.wires[l].serving.Accepted?
    case Relay(l) => l < |s.wires| && s.wires[l].serving.Written?
    case DeliverDown(l, _) => l < |s.wires| && s.wires[l].down != []
    case Check(n, _) => n < |s.nodes| && s.nodes[n].firing.None?
    case Announce(n) => n < |s.nodes| && s.nodes[n].firing.Some?
    case LoseUp(l) => l < |s.wires| && s.wires[l].up != []
    case LoseDown(l) => l < |s.wires| && s.wires[l].down != []
    case SetClient(l, _) => l < |s.wires|
    case SetPeer(l, _) => l < |s.wires|
    case Tick(_) => true
    case Copy(n, _) => n < |s.nodes|
    case Send(n, _) => n < |s.nodes|
  }

  /** A wire after daemon n has written c to its clients outside `skipped` and to its peers. */
  function Feed(link: Link, w: Wire, n: nat, c: Content, skip: bool): Wire {
    w.(down := if link.server == n && w.client && !skip then w.down + [c] else w.down,
       up := if link.dialer == n && w.peer then w.up + [c] else w.up)
  }

  function Publish(g: Topology, wires: seq<Wire>, n: nat, c: Content, skipped: set<nat>): (r: seq<Wire>)
    requires |wires| == |g.links|
    ensures |r| == |wires|
    ensures forall l :: 0 <= l < |r| ==> r[l] == Feed(g.links[l], wires[l], n, c, l in skipped)
  {
    seq(|wires|, l requires 0 <= l < |wires| => Feed(g.links[l], wires[l], n, c, l in skipped))
  }

  /** The links whose client sent this key recently. */
  function Echoing(wires: seq<Wire>, key: Key, now: int, cfg: Config): set<nat> {
    set l: nat | l < |wires| && RecentlySent(wires[l].note, key, now, cfg.window)
  }

  /** `LocalWrite` */
  function LocalWrite(node: Node, c: Content, ok: bool): Node {
    if ok then node.(clip := c, watch := Write(KeyOf(c))) else node
  }

  function Observed(node: Node): Node {
    var key := KeyOf(node.clip);
    node.(watch := Observe(node.watch, key),
          firing := if Fires(node.watch, key) then Some(node.clip) else None)
  }

  function Do(g: Topology, s: State, a: Action, cfg: Config): (t: State)
    requires Shaped(g, s) && Enabled(g, s, a)
    ensures Shaped(g, t)
  {
    match a
    case DeliverUp(l) =>
      var w, n := s.wires[l], g.links[l].server;
      (match Received(w.up[0])
       case None => s.(wires := s.wires[l := w.(up := w.up[1..])])
       case Some(c) =>
         var key, gate := KeyOf(c), s.nodes[n].gate;
         var w' := w.(up := w.up[1..], note := Note(key, At(s.now)));
         if IsEcho(gate, key, s.now, cfg.window) then s.(wires := s.wires[l := w'])
         else s.(wires := s.wires[l := w'.(serving := Accepted(c))],
                 nodes := s.nodes[n := s.nodes[n].(gate := Arrive(gate, key, s.now, cfg.window))],
                 accepts := s.accepts + [n]))
    case WriteClip(l, ok) =>
      var w, n := s.wires[l], g.links[l].server;
      s.(wires := s.wires[l := w.(serving := Written(w.serving.c))],
         nodes := s.nodes[n := LocalWrite(s.nodes[n], w.serving.c, ok)])
    case Relay(l) =>
      var w, n := s.wires[l], g.links[l].server;
      var wires := s.wires[l := w.(serving := Idle)];
      if TooBig(w.serving.c, cfg) then s.(wires := wires)
      else s.(wires := Publish(g, wires, n, w.serving.c, {l}))
    case DeliverDown(l, ok) =>
      var w, n := s.wires[l], g.links[l].dialer;
      var wires := s.wires[l := w.(down := w.down[1..])];
      (match Received(w.down[0])
       case None => s.(wires := wires)
       case Some(c) => s.(wires := wires, nodes := s.nodes[n := LocalWrite(s.nodes[n], c, ok)]))
    case Check(n, ok) => if ok then s.(nodes := s.nodes[n := Observed(s.nodes[n])]) else s
    case Announce(n) =>
      var c := s.nodes[n].firing.value;
      s.(nodes := s.nodes[n := s.nodes[n].(firing := None)],
         wires := Publish(g, s.wires, n, c, Echoing(s.wires, KeyOf(c), s.now, cfg)))
    case LoseUp(l) => s.(wires := s.wires[l := s.wires[l].(up := s.wires[l].up[1..])])
    case LoseDown(l) => s.(wires := s.wires[l := s.wires[l].(down := s.wires[l].down[1..])])
    case SetClient(l, on) =>
      var w := s.wires[l];
      s.(wires := s.wires[l := w.(client := on, note := if on then NO_NOTE else w.note)])
    case SetPeer(l, on) => s.(wires := s.wires[l := s.wires[l].(peer := on)])
    case Tick(d) => s.(now := s.now + d)
    case Copy(n, c) => s.(nodes := s.nodes[n := s.nodes[n].(clip := c)])
    case Send(n, c) => s.(wires := Publish(g, s.wires, n, c, Echoing(s.wires, KeyOf(c), s.now, cfg)))
  }

  predicate Run(g: Topology, s: State, actions: seq<Action>, cfg: Config)
    requires Shaped(g, s)
    decreases |actions|
  {
    actions == [] || (Enabled(g, s, actions[0]) && Run(g, Do(g, s, actions[0], cfg), actions[1..], cfg))
  }

  function After(g: Topology, s: State, actions: seq<Action>, cfg: Config): (t: State)
    requires Shaped(g, s) && Run(g, s, actions, cfg)
    ensures Shaped(g, t)
    decreases |actions|
  {
    if actions == [] then s else After(g, Do(g, s, actions[0], cfg), actions[1..], cfg)
  }

  predicate IsDelivery(a: Action) {
    a.DeliverUp? || a.DeliverDown?
  }

  function Deliveries(actions: seq<Action>): nat
    decreases |actions|
  {
    if actions == [] then 0 else (if IsDelivery(actions[0]) then 1 else 0) + Deliveries(actions[1..])
  }

  lemma RunFirst(g: Topology, s: State, a: Action, rest: seq<Action>, cfg: Config)
    requires Shaped(g, s) && Enabled(g, s, a) && Run(g, Do(g, s, a, cfg), rest, cfg)
    ensures Run(g, s, [a] + rest, cfg)
    ensures After(g, s, [a] + rest, cfg) == After(g, Do(g, s, a, cfg), rest, cfg)
    ensures Deliveries([a] + rest) == Deliveries(rest) + if IsDelivery(a) then 1 else 0
  {
    assert ([a] + rest)[1..] == rest;
  }

  lemma {:induction false} DeliveriesConcat(first: seq<Action>, rest: seq<Action>)
    ensures Deliveries(first + rest) == Deliveries(first) + Deliveries(rest)
    decreases |first|
  {
    if first == [] {
      assert first + rest == rest;
    } else {
      DeliveriesConcat(first[1..], rest);
      assert (first + rest)[1..] == first[1..] + rest;
    }
  }

  lemma {:induction false} RunConcat(g: Topology, s: State, first: seq<Action>, rest: seq<Action>, cfg: Config)
    requires Shaped(g, s) && Run(g, s, first, cfg) && Run(g, After(g, s, first, cfg), rest, cfg)
    ensures Run(g, s, first + rest, cfg)
    ensures After(g, s, first + rest, cfg) == After(g, After(g, s, first, cfg), rest, cfg)
    decreases |first|
  {
    if first == [] {
      assert first + rest == rest;
    } else {
      assert (first + rest)[0] == first[0] && (first + rest)[1..] == first[1..] + rest;
      RunConcat(g, Do(g, s, first[0], cfg), first[1..], rest, cfg);
    }
  }
}
