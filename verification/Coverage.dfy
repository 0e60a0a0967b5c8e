/**
 Where a flood gets to: when the network has come to rest, with nothing lost, every daemon that
 can be reached from the origin by dialling holds the content, and so does every daemon that dials
 one of those (src/internal/websocket/handlers.go:131-144, broadcast.go:23-33,
 src/internal/cli/app/app.go:121-135).
 */
module Coverage {
  import opened Prelude
  import opened Codec
  import opened Gates
  import opened Watching
  import opened ServerSpec
  import opened Network
  import opened NetworkLoad
  import opened DialGraph

  /** Steps of a network that loses nothing: writes succeed, links stay up, nobody copies anything else. */
  predicate Smooth(a: Action) {
    match a
    case DeliverUp(_) => true
    case WriteClip(_, ok) => ok
    case Relay(_) => true
    case DeliverDown(_, ok) => ok
    case Check(_, _) => true
    case Announce(_) => true
    case Tick(_) => true
    case _ => false
  }

  predicate WireHolds(w: Wire, c: Content) {
    && w.client && w.peer
    && (forall i :: 0 <= i < |w.up| ==> w.up[i] == c)
    && (forall i :: 0 <= i < |w.down| ==> w.down[i] == c)
    && (!w.serving.Idle? ==> w.serving.c == c)
  }

  predicate NodeHolds(node: Node, c: Content) {
    && !Unseen(node)
    && (node.firing.Some? ==> node.firing.value == c && node.clip == c)
  }

  /** Only c is about, and every watcher knows its clipboard. */
  predicate OnlyContent(s: State, c: Content) {
    && (forall l :: 0 <= l < |s.wires| ==> WireHolds(s.wires[l], c))
    && (forall n :: 0 <= n < |s.nodes| ==> NodeHolds(s.nodes[n], c))
  }

  /** Some handler of the daemon has accepted c and not relayed it yet. */
  predicate Busy(g: Topology, s: State, n: nat)
    requires Shaped(g, s)
  {
    exists l :: 0 <= l < |s.wires| && g.links[l].server == n && !s.wires[l].serving.Idle?
  }

  /** A handler that has not got round to writing the clipboard. */
  predicate StillToWrite(g: Topology, s: State, n: nat)
    requires Shaped(g, s)
  {
    exists l :: 0 <= l < |s.wires| && g.links[l].server == n && s.wires[l].serving.Accepted?
  }

  predicate Has(s: State, n: nat, c: Content) {
    n < |s.nodes| && s.nodes[n].clip == c
  }

  /** c has been passed on along link l, or is on its way, or would be stopped by a gate that was shut. */
  predicate PassedUp(g: Topology, s: State, l: nat, shut: set<nat>)
    requires Shaped(g, s) && l < |s.wires|
  {
    g.links[l].server in s.accepts || g.links[l].server in shut || s.wires[l].up != []
  }

  predicate PassedDown(g: Topology, s: State, l: nat, c: Content)
    requires Shaped(g, s) && l < |s.wires|
  {
    Has(s, g.links[l].dialer, c) || s.wires[l].down != []
  }

  /** What a link owes: its dialer has c if it sent it, and accepted daemons pass c on both ways. */
  predicate LinkOwes(g: Topology, s: State, l: nat, c: Content, shut: set<nat>)
    requires Shaped(g, s) && l < |s.wires|
  {
    var link, w := g.links[l], s.wires[l];
    && (w.up != [] || !w.serving.Idle? ==> Has(s, link.dialer, c))
    && (!w.serving.Idle? ==> link.server in s.accepts)
    && (w.serving.Written? ==> Has(s, link.server, c))
    && (link.dialer in s.accepts ==> Busy(g, s, link.dialer) || PassedUp(g, s, l, shut))
    && (link.server in s.accepts ==> Busy(g, s, link.server) || PassedDown(g, s, l, c))
  }

  predicate GateOpen(s: State, n: nat, c: Content, cfg: Config)
    requires n < |s.nodes|
  {
    !IsEcho(s.nodes[n].gate, KeyOf(c), s.now, cfg.window)
  }

  predicate LinksOwe(g: Topology, s: State, c: Content, shut: set<nat>)
    requires Shaped(g, s)
  {
    forall l :: 0 <= l < |s.wires| ==> LinkOwes(g, s, l, c, shut)
  }

  predicate NodesOwe(g: Topology, s: State, c: Content, shut: set<nat>, cfg: Config)
    requires Shaped(g, s)
  {
    forall n :: 0 <= n < |s.nodes| ==>
      && (n !in s.accepts && n !in shut ==> GateOpen(s, n, c, cfg))
      && (n in s.accepts ==> Has(s, n, c) || StillToWrite(g, s, n))
  }

  predicate OriginOwes(g: Topology, s: State, o: nat, c: Content, shut: set<nat>)
    requires Shaped(g, s)
  {
    && Has(s, o, c)
    && (s.nodes[o].firing.None? ==>
          forall l :: 0 <= l < |s.wires| && g.links[l].dialer == o ==> PassedUp(g, s, l, shut))
  }

  predicate Spreading(g: Topology, s: State, o: nat, c: Content, shut: set<nat>, cfg: Config)
    requires Shaped(g, s)
  {
    OnlyContent(s, c) && LinksOwe(g, s, c, shut) && NodesOwe(g, s, c, shut, cfg) && OriginOwes(g, s, o, c, shut)
  }

  /** The daemons whose gate would stop c at a given time. */
  function ShutAt(s: State, c: Content, now: int, cfg: Config): set<nat> {
    set n: nat | n < |s.nodes| && IsEcho(s.nodes[n].gate, KeyOf(c), now, cfg.window)
  }

  /**
   The origin is about to announce c and nothing else is going on. Any gate may be shut.
   Acceptances are counted from here.
   */
  predicate Start(g: Topology, s: State, o: nat, c: Content)
    requires Shaped(g, s)
  {
    && o < |s.nodes| && s.nodes[o].firing == Some(c) && s.nodes[o].clip == c && s.accepts == []
    && (forall n :: 0 <= n < |s.nodes| ==> !Unseen(s.nodes[n]) && (n != o ==> s.nodes[n].firing.None?))
    && (forall l :: 0 <= l < |s.wires| ==>
          var w := s.wires[l];
          w.client && w.peer && w.up == [] && w.down == [] && w.serving.Idle?)
  }

  lemma StartSpreads(g: Topology, s: State, o: nat, c: Content, cfg: Config)
    requires Shaped(g, s) && Start(g, s, o, c)
    ensures Spreading(g, s, o, c, ShutAt(s, c, s.now, cfg), cfg)
  {
  }

  // What any step keeps

  /** From s to t whoever has c keeps it, whoever accepted has accepted, and newcomers are busy. */
  predicate Onward(g: Topology, s: State, t: State, c: Content)
    requires Shaped(g, s) && Shaped(g, t)
  {
    && (forall n :: 0 <= n < |s.nodes| && s.nodes[n].clip == c ==> t.nodes[n].clip == c)
    && (forall n :: n in s.accepts ==> n in t.accepts)
    && (forall n :: n in t.accepts && n !in s.accepts ==> Busy(g, t, n))
  }

  predicate HandlersStay(g: Topology, s: State, t: State)
    requires Shaped(g, s) && Shaped(g, t)
  {
    forall l :: 0 <= l < |s.wires| && !s.wires[l].serving.Idle? ==> !t.wires[l].serving.Idle?
  }

  lemma BusyStays(g: Topology, s: State, t: State, n: nat)
    requires Shaped(g, s) && Shaped(g, t) && HandlersStay(g, s, t)
    ensures Busy(g, s, n) ==> Busy(g, t, n)
  {
    if Busy(g, s, n) {
      var l :| 0 <= l < |s.wires| && g.links[l].server == n && !s.wires[l].serving.Idle?;
      assert !t.wires[l].serving.Idle?;
    }
  }

  lemma UntouchedOwes(g: Topology, s: State, t: State, x: nat, c: Content, shut: set<nat>)
    requires Shaped(g, s) && Shaped(g, t) && x < |s.wires| && LinkOwes(g, s, x, c, shut)
    requires t.wires[x] == s.wires[x] && Onward(g, s, t, c) && HandlersStay(g, s, t)
    ensures LinkOwes(g, t, x, c, shut)
  {
    BusyStays(g, s, t, g.links[x].dialer);
    BusyStays(g, s, t, g.links[x].server);
  }

  lemma OthersOwe(g: Topology, s: State, t: State, l: nat, c: Content, shut: set<nat>)
    requires Shaped(g, s) && Shaped(g, t) && LinksOwe(g, s, c, shut) && l < |s.wires|
    requires t.wires == s.wires[l := t.wires[l]] && Onward(g, s, t, c) && HandlersStay(g, s, t)
    requires LinkOwes(g, t, l, c, shut)
    ensures LinksOwe(g, t, c, shut)
  {
    forall x | 0 <= x < |t.wires|
      ensures LinkOwes(g, t, x, c, shut)
    {
      if x != l {
        UntouchedOwes(g, s, t, x, c, shut);
      }
    }
  }

  /** The daemons' side, when no handler has just written or finished. */
  lemma NodesStillOwe(g: Topology, s: State, t: State, c: Content, shut: set<nat>, cfg: Config)
    requires Shaped(g, s) && Shaped(g, t) && NodesOwe(g, s, c, shut, cfg) && Onward(g, s, t, c)
    requires t.now >= s.now
    requires forall n :: 0 <= n < |s.nodes| ==> t.nodes[n].gate == s.nodes[n].gate || n in t.accepts
    requires forall l :: 0 <= l < |s.wires| && s.wires[l].serving.Accepted? ==>
               t.wires[l].serving.Accepted? || Has(t, g.links[l].server, c)
    requires forall n :: n in t.accepts && n !in s.accepts ==> StillToWrite(g, t, n)
    ensures NodesOwe(g, t, c, shut, cfg)
  {
    forall n | 0 <= n < |t.nodes|
      ensures n !in t.accepts && n !in shut ==> GateOpen(t, n, c, cfg)
      ensures n in t.accepts ==> Has(t, n, c) || StillToWrite(g, t, n)
    {
      if n !in t.accepts {
        assert n !in shut ==> GateOpen(s, n, c, cfg);
      } else if n in s.accepts && !Has(s, n, c) {
        var l :| 0 <= l < |s.wires| && g.links[l].server == n && s.wires[l].serving.Accepted?;
        assert t.wires[l].serving.Accepted? || Has(t, n, c);
      }
    }
  }

  lemma OneWireHolds(s: State, t: State, l: nat, n: nat, c: Content)
    requires OnlyContent(s, c) && l < |s.wires| && n < |s.nodes|
    requires |t.wires| == |s.wires| && |t.nodes| == |s.nodes|
    requires t.wires == s.wires[l := t.wires[l]] && t.nodes == s.nodes[n := t.nodes[n]]
    requires WireHolds(t.wires[l], c) && NodeHolds(t.nodes[n], c)
    ensures OnlyContent(t, c)
  {
  }

  // Step by step

  /** A step at link l and daemon n that keeps clips, acceptances, handlers and what has been passed on. */
  predicate Moved(g: Topology, s: State, t: State, l: nat, n: nat, c: Content, shut: set<nat>)
    requires Shaped(g, s) && Shaped(g, t)
  {
    && l < |s.wires| && n < |s.nodes|
    && t.now == s.now && t.wires == s.wires[l := t.wires[l]] && t.nodes == s.nodes[n := t.nodes[n]]
    && WireHolds(t.wires[l], c) && NodeHolds(t.nodes[n], c) && t.nodes[n].firing == s.nodes[n].firing
    && (s.nodes[n].clip == c ==> t.nodes[n].clip == c)
    && (t.nodes[n].gate == s.nodes[n].gate || n in t.accepts)
    && (|| t.accepts == s.accepts
        || (t.accepts == s.accepts + [n] && g.links[l].server == n && t.wires[l].serving.Accepted?))
    && (!s.wires[l].serving.Idle? ==> !t.wires[l].serving.Idle?)
    && (s.wires[l].serving.Accepted? ==> t.wires[l].serving.Accepted? || Has(t, g.links[l].server, c))
    && (PassedUp(g, s, l, shut) ==> PassedUp(g, t, l, shut))
  }

  lemma MovedOnward(g: Topology, s: State, t: State, l: nat, n: nat, c: Content, shut: set<nat>)
    requires Shaped(g, s) && Shaped(g, t) && Moved(g, s, t, l, n, c, shut)
    ensures Onward(g, s, t, c) && HandlersStay(g, s, t)
    ensures forall m :: m in t.accepts && m !in s.accepts ==> StillToWrite(g, t, m)
  {
    if t.accepts != s.accepts {
      assert Busy(g, t, n) && StillToWrite(g, t, n);
    }
  }

  lemma MovedOrigin(g: Topology, s: State, t: State, l: nat, n: nat, o: nat, c: Content, shut: set<nat>)
    requires Shaped(g, s) && Shaped(g, t) && Moved(g, s, t, l, n, c, shut) && OriginOwes(g, s, o, c, shut)
    ensures OriginOwes(g, t, o, c, shut)
  {
    forall x | 0 <= x < |t.wires| && g.links[x].dialer == o && t.nodes[o].firing.None?
      ensures PassedUp(g, t, x, shut)
    {
      assert PassedUp(g, s, x, shut);
    }
  }

  lemma MovedSpreads(g: Topology, s: State, t: State, l: nat, n: nat, o: nat, c: Content, shut: set<nat>, cfg: Config)
    requires Shaped(g, s) && Shaped(g, t) && Spreading(g, s, o, c, shut, cfg) && Moved(g, s, t, l, n, c, shut)
    requires LinkOwes(g, t, l, c, shut)
    ensures Spreading(g, t, o, c, shut, cfg)
  {
    MovedOnward(g, s, t, l, n, c, shut);
    OneWireHolds(s, t, l, n, c);
    OthersOwe(g, s, t, l, c, shut);
    NodesStillOwe(g, s, t, c, shut, cfg);
    MovedOrigin(g, s, t, l, n, o, c, shut);
  }

  lemma DeliverUpMoves(g: Topology, s: State, t: State, l: nat, c: Content, shut: set<nat>, cfg: Config)
    requires Shaped(g, s) && Shaped(g, t) && Enabled(g, s, DeliverUp(l)) && t == Do(g, s, DeliverUp(l), cfg)
    requires WireHolds(s.wires[l], c) && NodeHolds(s.nodes[g.links[l].server], c) && Stable(c)
    requires var n := g.links[l].server; n in s.accepts || n in shut || GateOpen(s, n, c, cfg)
    ensures Moved(g, s, t, l, g.links[l].server, c, shut)
    ensures g.links[l].server in t.accepts || g.links[l].server in shut
    ensures t.wires[l].down == s.wires[l].down && !t.wires[l].serving.Written?
    ensures t.wires[l].serving.Accepted? ==> g.links[l].server in t.accepts
  {
    assert s.wires[l].up[0] == c && Received(c) == Some(c);
  }

  lemma DeliveredUpOwes(g: Topology, s: State, t: State, l: nat, c: Content, shut: set<nat>)
    requires Shaped(g, s) && Shaped(g, t) && l < |s.wires| && LinkOwes(g, s, l, c, shut)
    requires Moved(g, s, t, l, g.links[l].server, c, shut)
    requires g.links[l].server in t.accepts || g.links[l].server in shut
    requires t.wires[l].down == s.wires[l].down && s.wires[l].serving.Idle? && s.wires[l].up != []
    requires !t.wires[l].serving.Written? && (t.wires[l].serving.Accepted? ==> g.links[l].server in t.accepts)
    ensures LinkOwes(g, t, l, c, shut)
  {
    MovedOnward(g, s, t, l, g.links[l].server, c, shut);
    BusyStays(g, s, t, g.links[l].dialer);
    BusyStays(g, s, t, g.links[l].server);
  }

  lemma DeliverUpSpreads(g: Topology, s: State, l: nat, o: nat, c: Content, shut: set<nat>, cfg: Config)
    requires Shaped(g, s) && Spreading(g, s, o, c, shut, cfg) && Enabled(g, s, DeliverUp(l)) && Stable(c)
    ensures Spreading(g, Do(g, s, DeliverUp(l), cfg), o, c, shut, cfg)
  {
    var n, t := g.links[l].server, Do(g, s, DeliverUp(l), cfg);
    assert WireHolds(s.wires[l], c) && LinkOwes(g, s, l, c, shut) && NodeHolds(s.nodes[n], c);
    DeliverUpMoves(g, s, t, l, c, shut, cfg);
    DeliveredUpOwes(g, s, t, l, c, shut);
    MovedSpreads(g, s, t, l, n, o, c, shut, cfg);
  }

  lemma WriteClipMoves(g: Topology, s: State, t: State, l: nat, c: Content, shut: set<nat>, cfg: Config)
    requires Shaped(g, s) && Shaped(g, t) && Enabled(g, s, WriteClip(l, true)) && t == Do(g, s, WriteClip(l, true), cfg)
    requires WireHolds(s.wires[l], c) && NodeHolds(s.nodes[g.links[l].server], c)
    ensures Moved(g, s, t, l, g.links[l].server, c, shut)
    ensures Has(t, g.links[l].server, c)
  {
  }

  lemma WrittenOwes(g: Topology, s: State, t: State, l: nat, c: Content, shut: set<nat>)
    requires Shaped(g, s) && Shaped(g, t) && l < |s.wires| && LinkOwes(g, s, l, c, shut)
    requires Moved(g, s, t, l, g.links[l].server, c, shut) && Has(t, g.links[l].server, c) && t.accepts == s.accepts
    requires t.wires[l].down == s.wires[l].down && t.wires[l].up == s.wires[l].up && s.wires[l].serving.Accepted?
    ensures LinkOwes(g, t, l, c, shut)
  {
    MovedOnward(g, s, t, l, g.links[l].server, c, shut);
    BusyStays(g, s, t, g.links[l].dialer);
    BusyStays(g, s, t, g.links[l].server);
  }

  lemma WriteClipSpreads(g: Topology, s: State, l: nat, o: nat, c: Content, shut: set<nat>, cfg: Config)
    requires Shaped(g, s) && Spreading(g, s, o, c, shut, cfg) && Enabled(g, s, WriteClip(l, true))
    ensures Spreading(g, Do(g, s, WriteClip(l, true), cfg), o, c, shut, cfg)
  {
    var n, t := g.links[l].server, Do(g, s, WriteClip(l, true), cfg);
    assert WireHolds(s.wires[l], c) && LinkOwes(g, s, l, c, shut) && NodeHolds(s.nodes[n], c);
    WriteClipMoves(g, s, t, l, c, shut, cfg);
    WrittenOwes(g, s, t, l, c, shut);
    MovedSpreads(g, s, t, l, n, o, c, shut, cfg);
  }

  lemma DeliverDownMoves(g: Topology, s: State, t: State, l: nat, c: Content, shut: set<nat>, cfg: Config)
    requires Shaped(g, s) && Shaped(g, t) && Enabled(g, s, DeliverDown(l, true))
    requires t == Do(g, s, DeliverDown(l, true), cfg)
    requires WireHolds(s.wires[l], c) && NodeHolds(s.nodes[g.links[l].dialer], c) && Stable(c)
    ensures Moved(g, s, t, l, g.links[l].dialer, c, shut)
    ensures Has(t, g.links[l].dialer, c)
  {
    assert s.wires[l].down[0] == c && Received(c) == Some(c);
  }

  lemma DeliveredDownOwes(g: Topology, s: State, t: State, l: nat, c: Content, shut: set<nat>)
    requires Shaped(g, s) && Shaped(g, t) && l < |s.wires| && LinkOwes(g, s, l, c, shut)
    requires Moved(g, s, t, l, g.links[l].dialer, c, shut) && Has(t, g.links[l].dialer, c) && t.accepts == s.accepts
    requires t.wires[l].serving == s.wires[l].serving
    ensures LinkOwes(g, t, l, c, shut)
  {
    MovedOnward(g, s, t, l, g.links[l].dialer, c, shut);
    BusyStays(g, s, t, g.links[l].dialer);
    BusyStays(g, s, t, g.links[l].server);
  }

  lemma DeliverDownSpreads(g: Topology, s: State, l: nat, o: nat, c: Content, shut: set<nat>, cfg: Config)
    requires Shaped(g, s) && Spreading(g, s, o, c, shut, cfg) && Enabled(g, s, DeliverDown(l, true)) && Stable(c)
    ensures Spreading(g, Do(g, s, DeliverDown(l, true), cfg), o, c, shut, cfg)
  {
    var n, t := g.links[l].dialer, Do(g, s, DeliverDown(l, true), cfg);
    assert WireHolds(s.wires[l], c) && LinkOwes(g, s, l, c, shut) && NodeHolds(s.nodes[n], c);
    DeliverDownMoves(g, s, t, l, c, shut, cfg);
    DeliveredDownOwes(g, s, t, l, c, shut);
    MovedSpreads(g, s, t, l, n, o, c, shut, cfg);
  }

  lemma CheckChangesNothing(g: Topology, s: State, n: nat, ok: bool, c: Content, cfg: Config)
    requires Shaped(g, s) && OnlyContent(s, c) && Enabled(g, s, Check(n, ok))
    ensures Do(g, s, Check(n, ok), cfg) == s
  {
    assert NodeHolds(s.nodes[n], c);
    assert Observed(s.nodes[n]) == s.nodes[n];
    assert s.nodes[n := s.nodes[n]] == s.nodes;
  }

  // The fan-outs

  /** After daemon n has published c, every link it dials carries c, and so do its clients' but `skipped`. */
  predicate Fed(g: Topology, s: State, t: State, n: nat, c: Content, skipped: set<nat>)
    requires Shaped(g, s) && Shaped(g, t)
  {
    forall x :: 0 <= x < |s.wires| ==>
      var v, w := s.wires[x], t.wires[x];
      && (w.client && w.peer) == (v.client && v.peer)
      && w.up == (if g.links[x].dialer == n && v.peer then v.up + [c] else v.up)
      && w.down == (if g.links[x].server == n && v.client && x !in skipped then v.down + [c] else v.down)
  }

  lemma FedHolds(g: Topology, s: State, t: State, n: nat, c: Content, skipped: set<nat>)
    requires Shaped(g, s) && Shaped(g, t) && OnlyContent(s, c) && Fed(g, s, t, n, c, skipped)
    requires forall x :: 0 <= x < |s.wires| ==> t.wires[x].serving == s.wires[x].serving || t.wires[x].serving.Idle?
    ensures forall x :: 0 <= x < |s.wires| ==> WireHolds(t.wires[x], c)
  {
    forall x | 0 <= x < |s.wires|
      ensures WireHolds(t.wires[x], c)
    {
      assert WireHolds(s.wires[x], c);
    }
  }

  lemma RelayedPasses(g: Topology, s: State, t: State, l: nat, x: nat, c: Content, shut: set<nat>)
    requires Shaped(g, s) && Shaped(g, t) && Relayed(g, s, t, l, c) && x < |s.wires| && WireHolds(s.wires[x], c)
    requires Has(s, g.links[l].dialer, c)
    ensures PassedUp(g, s, x, shut) || g.links[x].dialer == g.links[l].server ==> PassedUp(g, t, x, shut)
    ensures PassedDown(g, s, x, c) || g.links[x].server == g.links[l].server ==> PassedDown(g, t, x, c)
  {
  }

  lemma RelayedLinkOwes(g: Topology, s: State, t: State, l: nat, x: nat, c: Content, shut: set<nat>)
    requires Shaped(g, s) && Shaped(g, t) && Relayed(g, s, t, l, c) && x < |s.wires| && WireHolds(s.wires[x], c)
    requires LinkOwes(g, s, x, c, shut) && Has(s, g.links[l].dialer, c) && Has(s, g.links[l].server, c)
    ensures LinkOwes(g, t, x, c, shut)
  {
    RelayedPasses(g, s, t, l, x, c, shut);
    BusyElsewhere(g, s, t, l, g.links[x].dialer);
    BusyElsewhere(g, s, t, l, g.links[x].server);
  }

  lemma BusyElsewhere(g: Topology, s: State, t: State, l: nat, m: nat)
    requires Shaped(g, s) && Shaped(g, t) && l < |s.wires|
    requires forall y :: 0 <= y < |s.wires| ==> t.wires[y].serving == if y == l then Idle else s.wires[y].serving
    ensures Busy(g, s, m) && m != g.links[l].server ==> Busy(g, t, m)
  {
    if Busy(g, s, m) && m != g.links[l].server {
      var y :| 0 <= y < |s.wires| && g.links[y].server == m && !s.wires[y].serving.Idle?;
      assert !t.wires[y].serving.Idle?;
    }
  }

  /** The wires and clocks of a relay, apart from how `Do` gets there. */
  predicate Relayed(g: Topology, s: State, t: State, l: nat, c: Content)
    requires Shaped(g, s) && Shaped(g, t)
  {
    && l < |s.wires| && t.now == s.now && t.nodes == s.nodes && t.accepts == s.accepts
    && Fed(g, s, t, g.links[l].server, c, {l})
    && forall x :: 0 <= x < |s.wires| ==> t.wires[x].serving == if x == l then Idle else s.wires[x].serving
  }

  lemma RelayEffect(g: Topology, s: State, l: nat, c: Content, cfg: Config)
    requires Shaped(g, s) && Enabled(g, s, Relay(l)) && s.wires[l].serving.c == c && !TooBig(c, cfg)
    ensures Relayed(g, s, Do(g, s, Relay(l), cfg), l, c)
  {
  }

  lemma RelayedOrigin(g: Topology, s: State, t: State, l: nat, o: nat, c: Content, shut: set<nat>)
    requires Shaped(g, s) && Shaped(g, t) && Relayed(g, s, t, l, c) && OriginOwes(g, s, o, c, shut)
    ensures OriginOwes(g, t, o, c, shut)
  {
    forall x | 0 <= x < |t.wires| && g.links[x].dialer == o && t.nodes[o].firing.None?
      ensures PassedUp(g, t, x, shut)
    {
      assert PassedUp(g, s, x, shut);
    }
  }

  lemma RelayedLinksOwe(g: Topology, s: State, t: State, l: nat, c: Content, shut: set<nat>)
    requires Shaped(g, s) && Shaped(g, t) && Relayed(g, s, t, l, c) && s.wires[l].serving.Written?
    requires LinksOwe(g, s, c, shut) && OnlyContent(s, c)
    ensures LinksOwe(g, t, c, shut)
  {
    assert LinkOwes(g, s, l, c, shut);
    forall x | 0 <= x < |t.wires|
      ensures LinkOwes(g, t, x, c, shut)
    {
      assert LinkOwes(g, s, x, c, shut) && WireHolds(s.wires[x], c);
      RelayedLinkOwes(g, s, t, l, x, c, shut);
    }
  }

  lemma RelayedSpreads(g: Topology, s: State, t: State, l: nat, o: nat, c: Content, shut: set<nat>, cfg: Config)
    requires Shaped(g, s) && Shaped(g, t) && Spreading(g, s, o, c, shut, cfg) && Relayed(g, s, t, l, c)
    requires s.wires[l].serving.Written?
    ensures Spreading(g, t, o, c, shut, cfg)
  {
    FedHolds(g, s, t, g.links[l].server, c, {l});
    RelayedLinksOwe(g, s, t, l, c, shut);
    RelayedOrigin(g, s, t, l, o, c, shut);
    NodesStillOwe(g, s, t, c, shut, cfg);
  }

  lemma RelaySpreads(g: Topology, s: State, l: nat, o: nat, c: Content, shut: set<nat>, cfg: Config)
    requires Shaped(g, s) && Spreading(g, s, o, c, shut, cfg) && Enabled(g, s, Relay(l)) && !TooBig(c, cfg)
    ensures Spreading(g, Do(g, s, Relay(l), cfg), o, c, shut, cfg)
  {
    assert WireHolds(s.wires[l], c);
    RelayEffect(g, s, l, c, cfg);
    RelayedSpreads(g, s, Do(g, s, Relay(l), cfg), l, o, c, shut, cfg);
  }

  predicate Announced(g: Topology, s: State, t: State, n: nat, c: Content, skipped: set<nat>)
    requires Shaped(g, s) && Shaped(g, t)
  {
    && n < |s.nodes| && t.now == s.now && t.accepts == s.accepts
    && t.nodes == s.nodes[n := s.nodes[n].(firing := None)]
    && Fed(g, s, t, n, c, skipped)
    && forall x :: 0 <= x < |s.wires| ==> t.wires[x].serving == s.wires[x].serving
  }

  lemma AnnounceEffect(g: Topology, s: State, n: nat, c: Content, cfg: Config)
    requires Shaped(g, s) && Enabled(g, s, Announce(n)) && s.nodes[n].firing == Some(c)
    ensures Announced(g, s, Do(g, s, Announce(n), cfg), n, c, Echoing(s.wires, KeyOf(c), s.now, cfg))
  {
  }

  lemma FedLinkOwes(g: Topology, s: State, t: State, n: nat, x: nat, c: Content, shut: set<nat>, skipped: set<nat>)
    requires Shaped(g, s) && Shaped(g, t) && x < |s.wires| && Announced(g, s, t, n, c, skipped)
    requires LinkOwes(g, s, x, c, shut) && WireHolds(s.wires[x], c) && Has(s, n, c)
    ensures LinkOwes(g, t, x, c, shut)
  {
    BusyStays(g, s, t, g.links[x].dialer);
    BusyStays(g, s, t, g.links[x].server);
  }

  lemma AnnouncedLinksOwe(g: Topology, s: State, t: State, n: nat, c: Content, shut: set<nat>, skipped: set<nat>)
    requires Shaped(g, s) && Shaped(g, t) && Announced(g, s, t, n, c, skipped) && Has(s, n, c)
    requires LinksOwe(g, s, c, shut) && OnlyContent(s, c)
    ensures LinksOwe(g, t, c, shut)
  {
    forall x | 0 <= x < |t.wires|
      ensures LinkOwes(g, t, x, c, shut)
    {
      assert LinkOwes(g, s, x, c, shut) && WireHolds(s.wires[x], c);
      FedLinkOwes(g, s, t, n, x, c, shut, skipped);
    }
  }

  lemma AnnouncedSpreads(
    g: Topology, s: State, t: State, n: nat, o: nat, c: Content, shut: set<nat>, skipped: set<nat>, cfg: Config)
    requires Shaped(g, s) && Shaped(g, t) && Spreading(g, s, o, c, shut, cfg) && Announced(g, s, t, n, c, skipped)
    requires Has(s, n, c)
    ensures Spreading(g, t, o, c, shut, cfg)
  {
    FedHolds(g, s, t, n, c, skipped);
    AnnouncedLinksOwe(g, s, t, n, c, shut, skipped);
    NodesStillOwe(g, s, t, c, shut, cfg);
    OriginHasAnnounced(g, s, t, n, o, c, shut, skipped);
  }

  lemma AnnounceSpreads(g: Topology, s: State, n: nat, o: nat, c: Content, shut: set<nat>, cfg: Config)
    requires Shaped(g, s) && Spreading(g, s, o, c, shut, cfg) && Enabled(g, s, Announce(n))
    ensures Spreading(g, Do(g, s, Announce(n), cfg), o, c, shut, cfg)
  {
    assert NodeHolds(s.nodes[n], c);
    AnnounceEffect(g, s, n, c, cfg);
    AnnouncedSpreads(g, s, Do(g, s, Announce(n), cfg), n, o, c, shut, Echoing(s.wires, KeyOf(c), s.now, cfg), cfg);
  }

  lemma OriginHasAnnounced(
    g: Topology, s: State, t: State, n: nat, o: nat, c: Content, shut: set<nat>, skipped: set<nat>)
    requires Shaped(g, s) && Shaped(g, t) && OnlyContent(s, c) && OriginOwes(g, s, o, c, shut)
    requires Announced(g, s, t, n, c, skipped)
    ensures OriginOwes(g, t, o, c, shut)
  {
    forall l | 0 <= l < |t.wires| && g.links[l].dialer == o && t.nodes[o].firing.None?
      ensures PassedUp(g, t, l, shut)
    {
      assert WireHolds(s.wires[l], c);
      if n != o {
        assert PassedUp(g, s, l, shut);
      }
    }
  }

  lemma TickSpreads(g: Topology, s: State, d: nat, o: nat, c: Content, shut: set<nat>, cfg: Config)
    requires Shaped(g, s) && Spreading(g, s, o, c, shut, cfg)
    ensures Spreading(g, Do(g, s, Tick(d), cfg), o, c, shut, cfg)
  {
    var t := Do(g, s, Tick(d), cfg);
    forall x | 0 <= x < |s.wires|
      ensures LinkOwes(g, t, x, c, shut)
    {
      assert LinkOwes(g, s, x, c, shut);
      UntouchedOwes(g, s, t, x, c, shut);
    }
    NodesStillOwe(g, s, t, c, shut, cfg);
  }

  lemma SpreadingStep(g: Topology, s: State, a: Action, o: nat, c: Content, shut: set<nat>, cfg: Config)
    requires Shaped(g, s) && Spreading(g, s, o, c, shut, cfg) && Enabled(g, s, a) && Smooth(a)
    requires Stable(c) && !TooBig(c, cfg)
    ensures Spreading(g, Do(g, s, a, cfg), o, c, shut, cfg)
  {
    match a
    case DeliverUp(l) => DeliverUpSpreads(g, s, l, o, c, shut, cfg);
    case WriteClip(l, _) => WriteClipSpreads(g, s, l, o, c, shut, cfg);
    case Relay(l) => RelaySpreads(g, s, l, o, c, shut, cfg);
    case DeliverDown(l, _) => DeliverDownSpreads(g, s, l, o, c, shut, cfg);
    case Check(n, ok) => CheckChangesNothing(g, s, n, ok, c, cfg);
    case Announce(n) => AnnounceSpreads(g, s, n, o, c, shut, cfg);
    case Tick(d) => TickSpreads(g, s, d, o, c, shut, cfg);
  }

  lemma {:induction false} AlwaysSpreading(
    g: Topology, s: State, actions: seq<Action>, o: nat, c: Content, shut: set<nat>, cfg: Config)
    requires Shaped(g, s) && Spreading(g, s, o, c, shut, cfg) && Run(g, s, actions, cfg)
    requires Stable(c) && !TooBig(c, cfg)
    requires forall i :: 0 <= i < |actions| ==> Smooth(actions[i])
    ensures Spreading(g, After(g, s, actions, cfg), o, c, shut, cfg)
    decreases |actions|
  {
    if actions != [] {
      assert Smooth(actions[0]);
      assert forall i :: 0 <= i < |actions| - 1 ==> actions[1..][i] == actions[i + 1];
      SpreadingStep(g, s, actions[0], o, c, shut, cfg);
      AlwaysSpreading(g, Do(g, s, actions[0], cfg), actions[1..], o, c, shut, cfg);
    }
  }

  // At rest

  predicate Quiescent(s: State) {
    && (forall l :: 0 <= l < |s.wires| ==> s.wires[l].up == [] && s.wires[l].down == [] && s.wires[l].serving.Idle?)
    && (forall n :: 0 <= n < |s.nodes| ==> s.nodes[n].firing.None?)
  }

  /** A walk along dial edges that starts at the origin and leads to no shut daemon. */
  predicate OpenPath(g: Topology, o: nat, w: seq<nat>, shut: set<nat>) {
    && w != [] && Chained(g, w) && g.links[w[0]].dialer == o
    && forall i :: 0 <= i < |w| ==> g.links[w[i]].server !in shut
  }

  lemma {:induction false} PathAccepts(g: Topology, s: State, o: nat, c: Content, shut: set<nat>, w: seq<nat>)
    requires Shaped(g, s) && LinksOwe(g, s, c, shut) && OriginOwes(g, s, o, c, shut)
    requires Quiescent(s) && OpenPath(g, o, w, shut)
    ensures g.links[w[|w| - 1]].server in s.accepts
    decreases |w|
  {
    var l := w[|w| - 1];
    assert s.wires[l].up == [];
    if |w| == 1 {
      assert PassedUp(g, s, l, shut);
    } else {
      var init := w[..|w| - 1];
      PathAccepts(g, s, o, c, shut, init);
      assert g.links[init[|init| - 1]].server == g.links[l].dialer;
      assert LinkOwes(g, s, l, c, shut);
    }
  }

  /** Everyone the flood has to reach holds c. */
  predicate Covered(g: Topology, s: State, n: nat, c: Content)
    requires Shaped(g, s)
  {
    && Has(s, n, c)
    && forall y :: 0 <= y < |s.wires| && g.links[y].server == n ==> Has(s, g.links[y].dialer, c)
  }

  lemma RestIsCovered(g: Topology, s: State, o: nat, c: Content, shut: set<nat>, w: seq<nat>, cfg: Config)
    requires Shaped(g, s) && Spreading(g, s, o, c, shut, cfg) && Quiescent(s) && OpenPath(g, o, w, shut)
    ensures Covered(g, s, g.links[w[|w| - 1]].server, c)
  {
    PathAccepts(g, s, o, c, shut, w);
    var n := g.links[w[|w| - 1]].server;
    forall y | 0 <= y < |s.wires| && g.links[y].server == n
      ensures Has(s, g.links[y].dialer, c)
    {
      assert LinkOwes(g, s, y, c, shut) && s.wires[y].down == [];
      assert !Busy(g, s, n);
    }
  }

  /**
   Flood coverage: whenever a loss-free run comes to rest, every daemon at the end of a dial path
   from the origin through gates that were open holds the content, and so does every daemon that
   dials it.
   */
  lemma FloodCoverage(g: Topology, s: State, actions: seq<Action>, o: nat, c: Content, w: seq<nat>, cfg: Config)
    requires Shaped(g, s) && Start(g, s, o, c) && Run(g, s, actions, cfg)
    requires Stable(c) && !TooBig(c, cfg)
    requires forall i :: 0 <= i < |actions| ==> Smooth(actions[i])
    requires Quiescent(After(g, s, actions, cfg)) && OpenPath(g, o, w, ShutAt(s, c, s.now, cfg))
    ensures Covered(g, After(g, s, actions, cfg), g.links[w[|w| - 1]].server, c)
  {
    var shut := ShutAt(s, c, s.now, cfg);
    StartSpreads(g, s, o, c, cfg);
    AlwaysSpreading(g, s, actions, o, c, shut, cfg);
    RestIsCovered(g, After(g, s, actions, cfg), o, c, shut, w, cfg);
  }
}
