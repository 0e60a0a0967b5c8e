/**
 Exactly whom a flood reaches. A gate that still holds the content's key stops it, and so does a
 client's own fresh note at the origin. When a loss-free flood has come to rest, a daemon holds the
 content if and only if it held it before, can be reached from the origin by dialling through gates
 that are open, or dials such a daemon, or the origin over a link that is not muted
 (src/internal/websocket/peer.go:131-135, handlers.go:129-144, broadcast.go:39-54).
 */
module FloodReach {
  import opened Prelude
  import opened Codec
  import opened Gates
  import opened Watching
  import opened ServerSpec
  import opened Network
  import opened DialGraph
  import opened Coverage

  ghost predicate Reached(g: Topology, o: nat, shut: set<nat>, n: nat)
    requires ValidTopology(g)
  {
    exists w :: OpenPath(g, o, w, shut) && g.links[w[|w| - 1]].server == n
  }

  lemma DialledIsReached(g: Topology, o: nat, shut: set<nat>, l: nat)
    requires ValidTopology(g) && l < |g.links| && g.links[l].server !in shut
    requires g.links[l].dialer == o || Reached(g, o, shut, g.links[l].dialer)
    ensures Reached(g, o, shut, g.links[l].server)
  {
    if g.links[l].dialer == o {
      assert OpenPath(g, o, [l], shut);
    } else {
      var w :| OpenPath(g, o, w, shut) && g.links[w[|w| - 1]].server == g.links[l].dialer;
      var longer := w + [l];
      assert OpenPath(g, o, longer, shut) && longer[|longer| - 1] == l;
    }
  }

  /** n is within the origin's reach, or dials the origin over a live link or a daemon that is. */
  ghost predicate Served(g: Topology, o: nat, shut: set<nat>, muted: set<nat>, n: nat)
    requires ValidTopology(g)
  {
    || Reached(g, o, shut, n)
    || exists l :: 0 <= l < |g.links| && g.links[l].dialer == n
                   && ((g.links[l].server == o && l !in muted) || Reached(g, o, shut, g.links[l].server))
  }

  /** Fewer shut gates and muted links serve no fewer daemons. */
  lemma OpenerServesMore(g: Topology, o: nat, shut: set<nat>, muted: set<nat>, less: set<nat>, fewer: set<nat>, n: nat)
    requires ValidTopology(g) && less <= shut && fewer <= muted && Served(g, o, shut, muted, n)
    ensures Served(g, o, less, fewer, n)
  {
    forall m | Reached(g, o, shut, m)
      ensures Reached(g, o, less, m)
    {
      var w :| OpenPath(g, o, w, shut) && g.links[w[|w| - 1]].server == m;
      assert OpenPath(g, o, w, less);
    }
  }

  /** The links whose client sent the origin this content within the window. */
  function MutedAt(g: Topology, s: State, o: nat, c: Content, now: int, cfg: Config): set<nat>
    requires Shaped(g, s)
  {
    set l: nat | l < |s.wires| && g.links[l].server == o && RecentlySent(s.wires[l].note, KeyOf(c), now, cfg.window)
  }

  // Nobody else gets it

  /** A flood's origin, the gates and links that stay closed to it until `end`, and who held c before. */
  datatype Bounds = Bounds(o: nat, shut: set<nat>, muted: set<nat>, first: set<nat>, end: int)

  /** n has c to pass on. */
  predicate Source(accepts: seq<nat>, o: nat, n: nat) {
    n == o || n in accepts
  }

  /** The server's end of link l may write c down it. */
  predicate Feeds(g: Topology, accepts: seq<nat>, b: Bounds, l: nat)
    requires l < |g.links|
  {
    (g.links[l].server == b.o && l !in b.muted) || g.links[l].server in accepts
  }

  predicate DialsSource(g: Topology, accepts: seq<nat>, b: Bounds, n: nat) {
    exists l :: 0 <= l < |g.links| && g.links[l].dialer == n && Feeds(g, accepts, b, l)
  }

  predicate WireSourced(g: Topology, l: nat, w: Wire, accepts: seq<nat>, b: Bounds)
    requires l < |g.links|
  {
    && (w.up != [] ==> Source(accepts, b.o, g.links[l].dialer))
    && (w.down != [] ==> Feeds(g, accepts, b, l))
    && (!w.serving.Idle? ==> g.links[l].server in accepts)
  }

  predicate NodeSourced(g: Topology, node: Node, n: nat, accepts: seq<nat>, b: Bounds, c: Content, cfg: Config) {
    && (node.firing.Some? ==> n == b.o)
    && (node.clip == c ==> n in b.first || n in accepts || DialsSource(g, accepts, b, n))
    && (n in b.first ==> node.clip == c)
    && (n in b.shut ==> IsEcho(node.gate, KeyOf(c), b.end, cfg.window))
  }

  ghost predicate AllReached(g: Topology, accepts: seq<nat>, b: Bounds)
    requires ValidTopology(g)
  {
    forall n :: n in accepts ==> Reached(g, b.o, b.shut, n)
  }

  predicate WiresSourced(g: Topology, wires: seq<Wire>, accepts: seq<nat>, b: Bounds)
    requires |wires| == |g.links|
  {
    forall l :: 0 <= l < |wires| ==> WireSourced(g, l, wires[l], accepts, b)
  }

  predicate NodesSourced(g: Topology, nodes: seq<Node>, accepts: seq<nat>, b: Bounds, c: Content, cfg: Config) {
    forall n :: 0 <= n < |nodes| ==> NodeSourced(g, nodes[n], n, accepts, b, c, cfg)
  }

  ghost predicate Sourced(g: Topology, s: State, b: Bounds, c: Content, cfg: Config)
    requires Shaped(g, s)
  {
    && AllReached(g, s.accepts, b)
    && WiresSourced(g, s.wires, s.accepts, b)
    && NodesSourced(g, s.nodes, s.accepts, b, c, cfg)
  }

  lemma MoreSources(g: Topology, s: State, more: seq<nat>, b: Bounds, c: Content, cfg: Config)
    requires Shaped(g, s) && Sourced(g, s, b, c, cfg)
    ensures WiresSourced(g, s.wires, s.accepts + more, b)
    ensures NodesSourced(g, s.nodes, s.accepts + more, b, c, cfg)
  {
    forall n | 0 <= n < |s.nodes|
      ensures NodeSourced(g, s.nodes[n], n, s.accepts + more, b, c, cfg)
    {
      assert NodeSourced(g, s.nodes[n], n, s.accepts, b, c, cfg);
      if DialsSource(g, s.accepts, b, n) {
        var l :| 0 <= l < |g.links| && g.links[l].dialer == n && Feeds(g, s.accepts, b, l);
        assert Feeds(g, s.accepts + more, b, l);
      }
    }
    forall l | 0 <= l < |s.wires|
      ensures WireSourced(g, l, s.wires[l], s.accepts + more, b)
    {
      assert WireSourced(g, l, s.wires[l], s.accepts, b);
    }
  }

  lemma OneChanged(g: Topology, s: State, t: State, l: nat, n: nat, b: Bounds, c: Content, cfg: Config)
    requires Shaped(g, s) && Shaped(g, t) && l < |s.wires| && n < |s.nodes|
    requires WiresSourced(g, s.wires, t.accepts, b) && NodesSourced(g, s.nodes, t.accepts, b, c, cfg)
    requires t.wires == s.wires[l := t.wires[l]] && t.nodes == s.nodes[n := t.nodes[n]]
    requires WireSourced(g, l, t.wires[l], t.accepts, b) && NodeSourced(g, t.nodes[n], n, t.accepts, b, c, cfg)
    requires AllReached(g, t.accepts, b)
    ensures Sourced(g, t, b, c, cfg)
  {
  }

  /** An echo is only noted. */
  lemma EchoSourced(g: Topology, s: State, l: nat, b: Bounds, c: Content, cfg: Config)
    requires Shaped(g, s) && Sourced(g, s, b, c, cfg) && Enabled(g, s, DeliverUp(l))
    requires WireHolds(s.wires[l], c) && Stable(c) && !GateOpen(s, g.links[l].server, c, cfg)
    ensures Sourced(g, Do(g, s, DeliverUp(l), cfg), b, c, cfg)
  {
    var n, t := g.links[l].server, Do(g, s, DeliverUp(l), cfg);
    assert s.wires[l].up[0] == c && Received(c) == Some(c);
    assert WireSourced(g, l, s.wires[l], s.accepts, b);
    assert NodeSourced(g, s.nodes[n], n, s.accepts, b, c, cfg);
    OneChanged(g, s, t, l, n, b, c, cfg);
  }

  /** Only a gate that is not shut accepts, and then its daemon is in reach. */
  lemma AcceptSourced(g: Topology, s: State, l: nat, b: Bounds, c: Content, cfg: Config)
    requires Shaped(g, s) && Sourced(g, s, b, c, cfg) && Enabled(g, s, DeliverUp(l)) && s.now <= b.end
    requires WireHolds(s.wires[l], c) && Stable(c) && GateOpen(s, g.links[l].server, c, cfg)
    ensures Sourced(g, Do(g, s, DeliverUp(l), cfg), b, c, cfg)
  {
    var n, t := g.links[l].server, Do(g, s, DeliverUp(l), cfg);
    assert s.wires[l].up[0] == c && Received(c) == Some(c);
    assert WireSourced(g, l, s.wires[l], s.accepts, b);
    assert NodeSourced(g, s.nodes[n], n, s.accepts, b, c, cfg);
    assert n !in b.shut;
    DialledIsReached(g, b.o, b.shut, l);
    MoreSources(g, s, [n], b, c, cfg);
    assert t.accepts == s.accepts + [n];
    assert NodeSourced(g, s.nodes[n], n, t.accepts, b, c, cfg);
    OneChanged(g, s, t, l, n, b, c, cfg);
  }

  lemma WriteClipSourced(g: Topology, s: State, l: nat, b: Bounds, c: Content, cfg: Config)
    requires Shaped(g, s) && Sourced(g, s, b, c, cfg) && Enabled(g, s, WriteClip(l, true))
    requires WireHolds(s.wires[l], c)
    ensures Sourced(g, Do(g, s, WriteClip(l, true), cfg), b, c, cfg)
  {
    var n, t := g.links[l].server, Do(g, s, WriteClip(l, true), cfg);
    assert WireSourced(g, l, s.wires[l], s.accepts, b);
    assert NodeSourced(g, s.nodes[n], n, s.accepts, b, c, cfg);
    OneChanged(g, s, t, l, n, b, c, cfg);
  }

  lemma DeliverDownSourced(g: Topology, s: State, l: nat, b: Bounds, c: Content, cfg: Config)
    requires Shaped(g, s) && Sourced(g, s, b, c, cfg) && Enabled(g, s, DeliverDown(l, true))
    requires WireHolds(s.wires[l], c) && Stable(c)
    ensures Sourced(g, Do(g, s, DeliverDown(l, true), cfg), b, c, cfg)
  {
    var n, t := g.links[l].dialer, Do(g, s, DeliverDown(l, true), cfg);
    assert s.wires[l].down[0] == c && Received(c) == Some(c);
    assert WireSourced(g, l, s.wires[l], s.accepts, b);
    assert NodeSourced(g, s.nodes[n], n, s.accepts, b, c, cfg);
    assert DialsSource(g, s.accepts, b, n);
    OneChanged(g, s, t, l, n, b, c, cfg);
  }

  /** A fan-out by a source feeds only links it may feed. */
  lemma FedSourced(g: Topology, s: State, t: State, n: nat, b: Bounds, c: Content, skipped: set<nat>, cfg: Config)
    requires Shaped(g, s) && Shaped(g, t) && Sourced(g, s, b, c, cfg) && Fed(g, s, t, n, c, skipped)
    requires n in s.accepts || (n == b.o && b.muted <= skipped)
    requires t.accepts == s.accepts
    requires forall x :: 0 <= x < |s.wires| ==> t.wires[x].serving.Idle? || t.wires[x].serving == s.wires[x].serving
    requires NodesSourced(g, t.nodes, t.accepts, b, c, cfg)
    ensures Sourced(g, t, b, c, cfg)
  {
    forall x | 0 <= x < |t.wires|
      ensures WireSourced(g, x, t.wires[x], t.accepts, b)
    {
      assert WireSourced(g, x, s.wires[x], s.accepts, b);
    }
  }

  lemma RelaySourced(g: Topology, s: State, l: nat, b: Bounds, c: Content, cfg: Config)
    requires Shaped(g, s) && Sourced(g, s, b, c, cfg) && Enabled(g, s, Relay(l))
    requires WireHolds(s.wires[l], c) && !TooBig(c, cfg)
    ensures Sourced(g, Do(g, s, Relay(l), cfg), b, c, cfg)
  {
    RelayEffect(g, s, l, c, cfg);
    assert WireSourced(g, l, s.wires[l], s.accepts, b);
    FedSourced(g, s, Do(g, s, Relay(l), cfg), g.links[l].server, b, c, {l}, cfg);
  }

  // Before the announcement

  predicate Silent(s: State) {
    forall l :: 0 <= l < |s.wires| ==> s.wires[l].up == [] && s.wires[l].serving.Idle?
  }

  /** Until the origin announces nothing is on its way up, and the muted links' notes stay fresh. */
  predicate NotesKept(g: Topology, s: State, b: Bounds, c: Content, cfg: Config)
    requires Shaped(g, s)
  {
    && b.o < |s.nodes|
    && (s.nodes[b.o].firing.Some? ==>
          Silent(s) && b.muted <= MutedAt(g, s, b.o, c, b.end, cfg))
  }

  lemma AnnounceSourced(g: Topology, s: State, n: nat, b: Bounds, c: Content, cfg: Config)
    requires Shaped(g, s) && Sourced(g, s, b, c, cfg) && NotesKept(g, s, b, c, cfg) && s.now <= b.end
    requires Enabled(g, s, Announce(n)) && NodeHolds(s.nodes[n], c)
    ensures Sourced(g, Do(g, s, Announce(n), cfg), b, c, cfg)
  {
    var t := Do(g, s, Announce(n), cfg);
    var skipped := Echoing(s.wires, KeyOf(c), s.now, cfg);
    AnnounceEffect(g, s, n, c, cfg);
    assert NodeSourced(g, s.nodes[n], n, s.accepts, b, c, cfg);
    assert b.muted <= skipped;
    FedSourced(g, s, t, n, b, c, skipped, cfg);
  }

  lemma SourcedStep(g: Topology, s: State, a: Action, b: Bounds, c: Content, cfg: Config)
    requires Shaped(g, s) && OnlyContent(s, c) && Sourced(g, s, b, c, cfg) && NotesKept(g, s, b, c, cfg)
    requires Enabled(g, s, a) && Smooth(a) && Stable(c) && !TooBig(c, cfg) && s.now <= b.end
    ensures Sourced(g, Do(g, s, a, cfg), b, c, cfg)
  {
    match a
    case DeliverUp(l) =>
      if GateOpen(s, g.links[l].server, c, cfg) {
        AcceptSourced(g, s, l, b, c, cfg);
      } else {
        EchoSourced(g, s, l, b, c, cfg);
      }
    case WriteClip(l, _) => WriteClipSourced(g, s, l, b, c, cfg);
    case Relay(l) => RelaySourced(g, s, l, b, c, cfg);
    case DeliverDown(l, _) => DeliverDownSourced(g, s, l, b, c, cfg);
    case Check(n, ok) => CheckChangesNothing(g, s, n, ok, c, cfg);
    case Announce(n) => AnnounceSourced(g, s, n, b, c, cfg);
    case Tick(_) =>
  }

  /** Steps before the announcement touch no note and put nothing on a link upwards. */
  lemma StillSilent(g: Topology, s: State, a: Action, o: nat, c: Content, cfg: Config)
    requires Shaped(g, s) && OnlyContent(s, c) && Silent(s) && o < |s.nodes| && s.nodes[o].firing.Some?
    requires forall n :: 0 <= n < |s.nodes| && s.nodes[n].firing.Some? ==> n == o
    requires Enabled(g, s, a) && Smooth(a) && a != Announce(o)
    ensures var t := Do(g, s, a, cfg);
            Silent(t) && forall l :: 0 <= l < |s.wires| ==> t.wires[l].note == s.wires[l].note
  {
    match a
    case DeliverDown(_, _) =>
    case Check(n, ok) => CheckChangesNothing(g, s, n, ok, c, cfg);
    case Tick(_) =>
    case _ => assert false;
  }

  lemma NotesStep(g: Topology, s: State, a: Action, b: Bounds, c: Content, cfg: Config)
    requires Shaped(g, s) && OnlyContent(s, c) && Sourced(g, s, b, c, cfg) && NotesKept(g, s, b, c, cfg)
    requires Enabled(g, s, a) && Smooth(a)
    ensures NotesKept(g, Do(g, s, a, cfg), b, c, cfg)
  {
    var t := Do(g, s, a, cfg);
    if t.nodes[b.o].firing.Some? {
      FiringWasThere(g, s, a, b.o, c, cfg);
      forall n | 0 <= n < |s.nodes| && s.nodes[n].firing.Some?
        ensures n == b.o
      {
        assert NodeSourced(g, s.nodes[n], n, s.accepts, b, c, cfg);
      }
      StillSilent(g, s, a, b.o, c, cfg);
    }
  }

  lemma FiringWasThere(g: Topology, s: State, a: Action, o: nat, c: Content, cfg: Config)
    requires Shaped(g, s) && OnlyContent(s, c) && o < |s.nodes| && Enabled(g, s, a) && Smooth(a)
    ensures Do(g, s, a, cfg).nodes[o].firing.Some? ==> s.nodes[o].firing.Some? && a != Announce(o)
  {
    match a
    case DeliverUp(_) =>
    case WriteClip(_, _) =>
    case Relay(_) =>
    case DeliverDown(_, _) =>
    case Check(n, ok) => CheckChangesNothing(g, s, n, ok, c, cfg);
    case Announce(_) =>
    case Tick(_) =>
  }

  // The origin's own clients get it

  predicate ClientsFed(g: Topology, s: State, o: nat, c: Content, muted: set<nat>)
    requires Shaped(g, s)
  {
    forall l :: 0 <= l < |s.wires| && g.links[l].server == o && l !in muted ==> PassedDown(g, s, l, c)
  }

  /** Before the announcement no other note mutes a link; after it the clients have c or it is on its way. */
  predicate OriginFeeds(g: Topology, s: State, o: nat, c: Content, muted: set<nat>, cfg: Config)
    requires Shaped(g, s)
  {
    && o < |s.nodes|
    && (s.nodes[o].firing.Some? ==> Silent(s) && MutedAt(g, s, o, c, s.now, cfg) <= muted)
    && (s.nodes[o].firing.None? ==> ClientsFed(g, s, o, c, muted))
  }

  lemma MovedFeeds(
    g: Topology, s: State, t: State, l: nat, n: nat, o: nat, c: Content, shut: set<nat>, muted: set<nat>)
    requires Shaped(g, s) && Shaped(g, t) && Moved(g, s, t, l, n, c, shut) && ClientsFed(g, s, o, c, muted)
    requires t.wires[l].down == s.wires[l].down || Has(t, g.links[l].dialer, c)
    ensures ClientsFed(g, t, o, c, muted)
  {
    forall x | 0 <= x < |t.wires| && g.links[x].server == o && x !in muted
      ensures PassedDown(g, t, x, c)
    {
      assert PassedDown(g, s, x, c);
    }
  }

  lemma DeliverUpFeeds(
    g: Topology, s: State, l: nat, o: nat, c: Content, shut: set<nat>, muted: set<nat>, cfg: Config)
    requires Shaped(g, s) && Spreading(g, s, o, c, shut, cfg) && OriginFeeds(g, s, o, c, muted, cfg)
    requires Enabled(g, s, DeliverUp(l)) && Stable(c)
    ensures OriginFeeds(g, Do(g, s, DeliverUp(l), cfg), o, c, muted, cfg)
  {
    var n, t := g.links[l].server, Do(g, s, DeliverUp(l), cfg);
    assert s.nodes[o].firing.None?;
    assert WireHolds(s.wires[l], c) && NodeHolds(s.nodes[n], c);
    DeliverUpMoves(g, s, t, l, c, shut, cfg);
    MovedFeeds(g, s, t, l, n, o, c, shut, muted);
  }

  lemma WriteClipFeeds(
    g: Topology, s: State, l: nat, o: nat, c: Content, shut: set<nat>, muted: set<nat>, cfg: Config)
    requires Shaped(g, s) && OnlyContent(s, c) && OriginFeeds(g, s, o, c, muted, cfg)
    requires Enabled(g, s, WriteClip(l, true))
    ensures OriginFeeds(g, Do(g, s, WriteClip(l, true), cfg), o, c, muted, cfg)
  {
    var n, t := g.links[l].server, Do(g, s, WriteClip(l, true), cfg);
    assert s.nodes[o].firing.None?;
    assert WireHolds(s.wires[l], c) && NodeHolds(s.nodes[n], c);
    WriteClipMoves(g, s, t, l, c, shut, cfg);
    MovedFeeds(g, s, t, l, n, o, c, shut, muted);
  }

  lemma DeliverDownFeeds(
    g: Topology, s: State, l: nat, o: nat, c: Content, shut: set<nat>, muted: set<nat>, cfg: Config)
    requires Shaped(g, s) && OnlyContent(s, c) && OriginFeeds(g, s, o, c, muted, cfg) && s.nodes[o].firing.None?
    requires Enabled(g, s, DeliverDown(l, true)) && Stable(c)
    ensures OriginFeeds(g, Do(g, s, DeliverDown(l, true), cfg), o, c, muted, cfg)
  {
    var n, t := g.links[l].dialer, Do(g, s, DeliverDown(l, true), cfg);
    assert WireHolds(s.wires[l], c) && NodeHolds(s.nodes[n], c);
    DeliverDownMoves(g, s, t, l, c, shut, cfg);
    MovedFeeds(g, s, t, l, n, o, c, shut, muted);
  }

  lemma RelayFeeds(g: Topology, s: State, l: nat, o: nat, c: Content, muted: set<nat>, cfg: Config)
    requires Shaped(g, s) && OriginFeeds(g, s, o, c, muted, cfg) && Enabled(g, s, Relay(l))
    requires WireHolds(s.wires[l], c) && !TooBig(c, cfg)
    ensures OriginFeeds(g, Do(g, s, Relay(l), cfg), o, c, muted, cfg)
  {
    var t := Do(g, s, Relay(l), cfg);
    RelayEffect(g, s, l, c, cfg);
    assert s.nodes[o].firing.None?;
    forall x | 0 <= x < |t.wires| && g.links[x].server == o && x !in muted
      ensures PassedDown(g, t, x, c)
    {
      assert PassedDown(g, s, x, c);
    }
  }

  lemma AnnounceFeeds(g: Topology, s: State, o: nat, c: Content, muted: set<nat>, cfg: Config)
    requires Shaped(g, s) && OriginFeeds(g, s, o, c, muted, cfg) && OnlyContent(s, c) && Enabled(g, s, Announce(o))
    ensures OriginFeeds(g, Do(g, s, Announce(o), cfg), o, c, muted, cfg)
  {
    var t := Do(g, s, Announce(o), cfg);
    assert NodeHolds(s.nodes[o], c);
    AnnounceEffect(g, s, o, c, cfg);
    forall x | 0 <= x < |t.wires| && g.links[x].server == o && x !in muted
      ensures PassedDown(g, t, x, c)
    {
      assert WireHolds(s.wires[x], c);
      assert x !in MutedAt(g, s, o, c, s.now, cfg);
      assert x !in Echoing(s.wires, KeyOf(c), s.now, cfg);
    }
  }

  /** Nothing of the flood has moved yet, and time can only wear notes out. */
  lemma SilentFeeds(g: Topology, s: State, a: Action, o: nat, c: Content, muted: set<nat>, cfg: Config)
    requires Shaped(g, s) && OnlyContent(s, c) && OriginFeeds(g, s, o, c, muted, cfg) && s.nodes[o].firing.Some?
    requires forall n :: 0 <= n < |s.nodes| && s.nodes[n].firing.Some? ==> n == o
    requires Enabled(g, s, a) && Smooth(a) && a != Announce(o)
    ensures OriginFeeds(g, Do(g, s, a, cfg), o, c, muted, cfg)
  {
    var t := Do(g, s, a, cfg);
    StillSilent(g, s, a, o, c, cfg);
    TimeGoesOn(g, s, a, cfg);
    FiringStays(g, s, a, o, c, cfg);
    assert MutedAt(g, t, o, c, t.now, cfg) <= MutedAt(g, s, o, c, s.now, cfg);
  }

  lemma TimeGoesOn(g: Topology, s: State, a: Action, cfg: Config)
    requires Shaped(g, s) && Enabled(g, s, a)
    ensures Do(g, s, a, cfg).now >= s.now
  {
  }

  lemma FiringStays(g: Topology, s: State, a: Action, o: nat, c: Content, cfg: Config)
    requires Shaped(g, s) && OnlyContent(s, c) && o < |s.nodes| && s.nodes[o].firing.Some?
    requires Enabled(g, s, a) && Smooth(a) && a != Announce(o)
    ensures Do(g, s, a, cfg).nodes[o].firing == s.nodes[o].firing
  {
    match a
    case DeliverUp(_) =>
    case WriteClip(_, _) =>
    case Relay(_) =>
    case DeliverDown(_, _) =>
    case Check(n, ok) => CheckChangesNothing(g, s, n, ok, c, cfg);
    case Announce(_) =>
    case Tick(_) =>
  }

  lemma TickFeeds(g: Topology, s: State, d: nat, o: nat, c: Content, muted: set<nat>, cfg: Config)
    requires Shaped(g, s) && OriginFeeds(g, s, o, c, muted, cfg) && s.nodes[o].firing.None?
    ensures OriginFeeds(g, Do(g, s, Tick(d), cfg), o, c, muted, cfg)
  {
    var t := Do(g, s, Tick(d), cfg);
    forall x | 0 <= x < |t.wires| && g.links[x].server == o && x !in muted
      ensures PassedDown(g, t, x, c)
    {
      assert PassedDown(g, s, x, c);
    }
  }

  lemma FeedsStep(
    g: Topology, s: State, a: Action, o: nat, c: Content, shut: set<nat>, muted: set<nat>, b: Bounds, cfg: Config)
    requires Shaped(g, s) && Spreading(g, s, o, c, shut, cfg) && OriginFeeds(g, s, o, c, muted, cfg)
    requires Sourced(g, s, b, c, cfg) && b.o == o
    requires Enabled(g, s, a) && Smooth(a) && Stable(c) && !TooBig(c, cfg)
    ensures OriginFeeds(g, Do(g, s, a, cfg), o, c, muted, cfg)
  {
    forall n | 0 <= n < |s.nodes| && s.nodes[n].firing.Some?
      ensures n == o
    {
      assert NodeSourced(g, s.nodes[n], n, s.accepts, b, c, cfg);
    }
    if s.nodes[o].firing.Some? && a != Announce(o) {
      SilentFeeds(g, s, a, o, c, muted, cfg);
    } else {
      match a
      case DeliverUp(l) => DeliverUpFeeds(g, s, l, o, c, shut, muted, cfg);
      case WriteClip(l, _) => WriteClipFeeds(g, s, l, o, c, shut, muted, cfg);
      case Relay(l) => RelayFeeds(g, s, l, o, c, muted, cfg);
      case DeliverDown(l, _) => DeliverDownFeeds(g, s, l, o, c, shut, muted, cfg);
      case Check(n, ok) => CheckChangesNothing(g, s, n, ok, c, cfg);
      case Announce(n) => AnnounceFeeds(g, s, n, c, muted, cfg);
      case Tick(d) => TickFeeds(g, s, d, o, c, muted, cfg);
    }
  }

  // Put together

  ghost predicate Flooding(
    g: Topology, s: State, c: Content, shut: set<nat>, muted: set<nat>, b: Bounds, cfg: Config)
    requires Shaped(g, s)
  {
    && Spreading(g, s, b.o, c, shut, cfg) && OriginFeeds(g, s, b.o, c, muted, cfg)
    && Sourced(g, s, b, c, cfg) && NotesKept(g, s, b, c, cfg)
  }

  lemma FloodingStep(
    g: Topology, s: State, a: Action, c: Content, shut: set<nat>, muted: set<nat>, b: Bounds, cfg: Config)
    requires Shaped(g, s) && Flooding(g, s, c, shut, muted, b, cfg) && s.now <= b.end
    requires Enabled(g, s, a) && Smooth(a) && Stable(c) && !TooBig(c, cfg)
    ensures Flooding(g, Do(g, s, a, cfg), c, shut, muted, b, cfg)
  {
    SpreadingStep(g, s, a, b.o, c, shut, cfg);
    SourcedStep(g, s, a, b, c, cfg);
    NotesStep(g, s, a, b, c, cfg);
    FeedsStep(g, s, a, b.o, c, shut, muted, b, cfg);
  }

  lemma {:induction false} AlwaysFlooding(
    g: Topology, s: State, actions: seq<Action>, c: Content, shut: set<nat>, muted: set<nat>, b: Bounds, cfg: Config)
    requires Shaped(g, s) && Flooding(g, s, c, shut, muted, b, cfg) && Run(g, s, actions, cfg)
    requires Stable(c) && !TooBig(c, cfg) && After(g, s, actions, cfg).now <= b.end
    requires forall i :: 0 <= i < |actions| ==> Smooth(actions[i])
    ensures Flooding(g, After(g, s, actions, cfg), c, shut, muted, b, cfg)
    decreases |actions|
  {
    if actions != [] {
      assert Smooth(actions[0]);
      assert forall i :: 0 <= i < |actions| - 1 ==> actions[1..][i] == actions[i + 1];
      NeverEarlier(g, s, actions, cfg);
      FloodingStep(g, s, actions[0], c, shut, muted, b, cfg);
      AlwaysFlooding(g, Do(g, s, actions[0], cfg), actions[1..], c, shut, muted, b, cfg);
    }
  }

  lemma {:induction false} NeverEarlier(g: Topology, s: State, actions: seq<Action>, cfg: Config)
    requires Shaped(g, s) && Run(g, s, actions, cfg)
    ensures s.now <= After(g, s, actions, cfg).now
    decreases |actions|
  {
    if actions != [] {
      TimeGoesOn(g, s, actions[0], cfg);
      NeverEarlier(g, Do(g, s, actions[0], cfg), actions[1..], cfg);
    }
  }

  function Holders(s: State, c: Content): set<nat> {
    set n: nat | n < |s.nodes| && s.nodes[n].clip == c
  }

  function BoundsAt(g: Topology, s: State, o: nat, c: Content, end: int, cfg: Config): Bounds
    requires Shaped(g, s)
  {
    Bounds(o, ShutAt(s, c, end, cfg), MutedAt(g, s, o, c, end, cfg), Holders(s, c), end)
  }

  lemma StartFloods(g: Topology, s: State, o: nat, c: Content, end: int, cfg: Config)
    requires Shaped(g, s) && Start(g, s, o, c)
    ensures Flooding(g, s, c, ShutAt(s, c, s.now, cfg), MutedAt(g, s, o, c, s.now, cfg),
                     BoundsAt(g, s, o, c, end, cfg), cfg)
  {
    var b := BoundsAt(g, s, o, c, end, cfg);
    StartSpreads(g, s, o, c, cfg);
    forall n | 0 <= n < |s.nodes|
      ensures NodeSourced(g, s.nodes[n], n, s.accepts, b, c, cfg)
    {
    }
    forall l | 0 <= l < |s.wires|
      ensures WireSourced(g, l, s.wires[l], s.accepts, b)
    {
    }
  }

  lemma ServedHold(
    g: Topology, s: State, o: nat, c: Content, shut: set<nat>, muted: set<nat>, n: nat, cfg: Config)
    requires Shaped(g, s) && Spreading(g, s, o, c, shut, cfg) && OriginFeeds(g, s, o, c, muted, cfg) && Quiescent(s)
    requires Served(g, o, shut, muted, n)
    ensures Has(s, n, c)
  {
    if Reached(g, o, shut, n) {
      var w :| OpenPath(g, o, w, shut) && g.links[w[|w| - 1]].server == n;
      RestIsCovered(g, s, o, c, shut, w, cfg);
    } else {
      var l :| 0 <= l < |g.links| && g.links[l].dialer == n
               && ((g.links[l].server == o && l !in muted) || Reached(g, o, shut, g.links[l].server));
      if g.links[l].server == o && l !in muted {
        assert PassedDown(g, s, l, c) && s.wires[l].down == [];
      } else {
        var w :| OpenPath(g, o, w, shut) && g.links[w[|w| - 1]].server == g.links[l].server;
        RestIsCovered(g, s, o, c, shut, w, cfg);
      }
    }
  }

  lemma HoldersServed(g: Topology, s: State, b: Bounds, c: Content, n: nat, cfg: Config)
    requires Shaped(g, s) && Sourced(g, s, b, c, cfg) && Has(s, n, c) && n !in b.first
    ensures Served(g, b.o, b.shut, b.muted, n)
  {
    assert NodeSourced(g, s.nodes[n], n, s.accepts, b, c, cfg);
    if n !in s.accepts {
      var l :| 0 <= l < |g.links| && g.links[l].dialer == n && Feeds(g, s.accepts, b, l);
    }
  }

  /**
   Whatever time passes: a flood that has come to rest has reached everyone who is served through
   the gates and links open at its start, and nobody who is not served through those open at its end.
   */
  lemma FloodReachesBetween(g: Topology, s: State, actions: seq<Action>, o: nat, c: Content, n: nat, cfg: Config)
    requires Shaped(g, s) && Start(g, s, o, c) && n < g.nodes
    requires Run(g, s, actions, cfg) && Stable(c) && !TooBig(c, cfg)
    requires forall i :: 0 <= i < |actions| ==> Smooth(actions[i])
    requires Quiescent(After(g, s, actions, cfg))
    ensures var t, end := After(g, s, actions, cfg), After(g, s, actions, cfg).now;
            && (Has(s, n, c) || Served(g, o, ShutAt(s, c, s.now, cfg), MutedAt(g, s, o, c, s.now, cfg), n)
                ==> Has(t, n, c))
            && (Has(t, n, c)
                ==> Has(s, n, c) || Served(g, o, ShutAt(s, c, end, cfg), MutedAt(g, s, o, c, end, cfg), n))
  {
    var t := After(g, s, actions, cfg);
    var b := BoundsAt(g, s, o, c, t.now, cfg);
    var shut, muted := ShutAt(s, c, s.now, cfg), MutedAt(g, s, o, c, s.now, cfg);
    StartFloods(g, s, o, c, t.now, cfg);
    AlwaysFlooding(g, s, actions, c, shut, muted, b, cfg);
    if Has(s, n, c) {
      assert NodeSourced(g, t.nodes[n], n, t.accepts, b, c, cfg);
    } else if Has(t, n, c) {
      HoldersServed(g, t, b, c, n, cfg);
    }
    if Served(g, o, shut, muted, n) {
      ServedHold(g, t, o, c, shut, muted, n, cfg);
    }
  }

  /** By `end` no gate that was shut to c has opened, and no note that muted a link has worn out. */
  predicate StillClosed(g: Topology, s: State, o: nat, c: Content, end: int, cfg: Config)
    requires Shaped(g, s)
  {
    && ShutAt(s, c, s.now, cfg) <= ShutAt(s, c, end, cfg)
    && MutedAt(g, s, o, c, s.now, cfg) <= MutedAt(g, s, o, c, end, cfg)
  }

  /** So if none of them runs out meanwhile, it has reached exactly the daemons it serves. */
  lemma FloodReachesExactly(g: Topology, s: State, actions: seq<Action>, o: nat, c: Content, n: nat, cfg: Config)
    requires Shaped(g, s) && Start(g, s, o, c) && n < g.nodes
    requires Run(g, s, actions, cfg) && Stable(c) && !TooBig(c, cfg)
    requires forall i :: 0 <= i < |actions| ==> Smooth(actions[i])
    requires Quiescent(After(g, s, actions, cfg)) && StillClosed(g, s, o, c, After(g, s, actions, cfg).now, cfg)
    ensures Has(After(g, s, actions, cfg), n, c)
       <==> Has(s, n, c) || Served(g, o, ShutAt(s, c, s.now, cfg), MutedAt(g, s, o, c, s.now, cfg), n)
  {
    var end := After(g, s, actions, cfg).now;
    FloodReachesBetween(g, s, actions, o, c, n, cfg);
    if Served(g, o, ShutAt(s, c, end, cfg), MutedAt(g, s, o, c, end, cfg), n) {
      OpenerServesMore(g, o, ShutAt(s, c, end, cfg), MutedAt(g, s, o, c, end, cfg),
                       ShutAt(s, c, s.now, cfg), MutedAt(g, s, o, c, s.now, cfg), n);
    }
  }
}
