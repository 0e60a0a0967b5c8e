/**
 A copy that a shut gate swallows. Two daemons, one dialling the other: x is copied at the first and
 gets across, y is copied at the second and gets back, x is copied at the first again within the
 window. The second daemon's gate still holds x, since a local change never moves it
 (src/internal/websocket/broadcast.go:39-58), so its clipboard keeps y (handlers.go:132-140).
 */
module SwallowedCopy {
  import opened Prelude
  import opened Codec
  import opened Gates
  import opened Watching
  import opened ServerSpec
  import opened Network
  import opened FreshNetwork
  import opened Coverage
  import opened FloodReach
  import opened FloodRuns
  import opened FloodOutcome

  const PAIR := Topology(2, [Link(0, 1)])

  function Two(a: Node, b: Node, w: Wire, accepts: seq<nat>): (s: State)
    ensures Shaped(PAIR, s)
  {
    State(0, [a, b], [w], accepts)
  }

  /** A link with nothing on it, over which the dialled daemon got a clip with this key. */
  function NotedLink(key: Key): Wire {
    LINKED.(note := Note(key, At(0)))
  }

  /** x crosses from the first daemon to the second and is written there. */
  lemma Crosses(a: Node, b: Node, x: Content, cfg: Config) returns (actions: seq<Action>)
    requires a.clip == x && a.firing.None? && Fires(a.watch, KeyOf(x)) && Stable(x)
    requires b.gate == CLOSED
    ensures Run(PAIR, Two(a, b, LINKED, []), actions, cfg) && AllSmooth(actions)
    ensures After(PAIR, Two(a, b, LINKED, []), actions, cfg) ==
            Two(a.(watch := Observe(a.watch, KeyOf(x))),
                b.(gate := Gate(KeyOf(x), At(0)), clip := x, watch := Write(KeyOf(x))), NotedLink(KeyOf(x)), [1])
  {
    var key := KeyOf(x);
    var seen := a.(watch := Observe(a.watch, key));
    var gated := b.(gate := Gate(key, At(0)));
    var written := gated.(clip := x, watch := Write(key));
    var s0 := Two(a, b, LINKED, []);
    var s1 := Two(seen.(firing := Some(x)), b, LINKED, []);
    var s2 := Two(seen, b, LINKED.(up := [x]), []);
    var s3 := Two(seen, gated, NotedLink(key).(serving := Accepted(x)), [1]);
    var s4 := Two(seen, written, NotedLink(key).(serving := Written(x)), [1]);
    var s5 := Two(seen, written, NotedLink(key), [1]);
    Looks(a, b, LINKED, [], cfg);
    AnnouncesUp(seen, b, LINKED, [], x, cfg);
    Accepts(seen, b, LINKED, x, cfg);
    Writes(seen, gated, NotedLink(key), x, cfg);
    RelaysNowhere(seen, written, NotedLink(key), x, cfg);
    RunFirst(PAIR, s4, Relay(0), [], cfg);
    RunFirst(PAIR, s3, WriteClip(0, true), [Relay(0)] + [], cfg);
    RunFirst(PAIR, s2, DeliverUp(0), [WriteClip(0, true)] + ([Relay(0)] + []), cfg);
    RunFirst(PAIR, s1, Announce(0), [DeliverUp(0)] + ([WriteClip(0, true)] + ([Relay(0)] + [])), cfg);
    actions := [Announce(0)] + ([DeliverUp(0)] + ([WriteClip(0, true)] + ([Relay(0)] + [])));
    RunFirst(PAIR, s0, Check(0, true), actions, cfg);
    actions := [Check(0, true)] + actions;
  }

  lemma Looks(a: Node, b: Node, w: Wire, log: seq<nat>, cfg: Config)
    requires a.firing.None? && Fires(a.watch, KeyOf(a.clip))
    ensures Enabled(PAIR, Two(a, b, w, log), Check(0, true))
    ensures Do(PAIR, Two(a, b, w, log), Check(0, true), cfg) ==
            Two(a.(watch := Observe(a.watch, KeyOf(a.clip)), firing := Some(a.clip)), b, w, log)
  {
  }

  lemma AnnouncesUp(a: Node, b: Node, w: Wire, log: seq<nat>, x: Content, cfg: Config)
    requires a.firing.None? && w.peer && w.up == []
    ensures Enabled(PAIR, Two(a.(firing := Some(x)), b, w, log), Announce(0))
    ensures Do(PAIR, Two(a.(firing := Some(x)), b, w, log), Announce(0), cfg) == Two(a, b, w.(up := [x]), log)
  {
    var s := Two(a.(firing := Some(x)), b, w, log);
    var t := Do(PAIR, s, Announce(0), cfg);
    assert t.nodes == [a, b] && t.wires[0] == w.(up := [x]);
    assert t.wires == [w.(up := [x])];
  }

  lemma Accepts(a: Node, b: Node, w: Wire, x: Content, cfg: Config)
    requires b.gate == CLOSED && Stable(x) && w == LINKED
    ensures Enabled(PAIR, Two(a, b, w.(up := [x]), []), DeliverUp(0))
    ensures Do(PAIR, Two(a, b, w.(up := [x]), []), DeliverUp(0), cfg) ==
            Two(a, b.(gate := Gate(KeyOf(x), At(0))), NotedLink(KeyOf(x)).(serving := Accepted(x)), [1])
  {
    var t := Do(PAIR, Two(a, b, w.(up := [x]), []), DeliverUp(0), cfg);
    assert Received(x) == Some(x) && [x][1..] == [];
    assert t.wires == [NotedLink(KeyOf(x)).(serving := Accepted(x))];
    assert t.nodes == [a, b.(gate := Gate(KeyOf(x), At(0)))];
  }

  lemma Writes(a: Node, b: Node, w: Wire, x: Content, cfg: Config)
    ensures Enabled(PAIR, Two(a, b, w.(serving := Accepted(x)), [1]), WriteClip(0, true))
    ensures Do(PAIR, Two(a, b, w.(serving := Accepted(x)), [1]), WriteClip(0, true), cfg) ==
            Two(a, b.(clip := x, watch := Write(KeyOf(x))), w.(serving := Written(x)), [1])
  {
  }

  /** The second daemon has no other client and dials nobody. */
  lemma RelaysNowhere(a: Node, b: Node, w: Wire, x: Content, cfg: Config)
    requires w.serving.Idle?
    ensures Enabled(PAIR, Two(a, b, w.(serving := Written(x)), [1]), Relay(0))
    ensures Do(PAIR, Two(a, b, w.(serving := Written(x)), [1]), Relay(0), cfg) == Two(a, b, w, [1])
  {
    var t := Do(PAIR, Two(a, b, w.(serving := Written(x)), [1]), Relay(0), cfg);
    assert t.wires[0] == w;
    assert t.wires == [w];
  }

  /** y, copied at the second daemon, comes back to the first. */
  lemma ComesBack(a: Node, b: Node, x: Content, y: Content, cfg: Config) returns (actions: seq<Action>)
    requires a.firing.None? && b.firing.None? && b.watch == Write(KeyOf(x)) && Rivals(x, y)
    ensures var s, key := Two(a, b, NotedLink(KeyOf(x)), [1]), KeyOf(y);
            Run(PAIR, s, actions, cfg) &&
            After(PAIR, s, actions, cfg) ==
            Two(a.(clip := y, watch := Write(key)), b.(clip := y, watch := Watch(key, KeyOf(x))),
                NotedLink(KeyOf(x)), [1])
  {
    var w, key := NotedLink(KeyOf(x)), KeyOf(y);
    var seen := b.(clip := y, watch := Watch(key, KeyOf(x)));
    var s0 := Two(a, b, w, [1]);
    var s1 := Two(a, b.(clip := y), w, [1]);
    var s2 := Two(a, seen.(firing := Some(y)), w, [1]);
    var s3 := Two(a, seen, w.(down := [y]), [1]);
    assert Do(PAIR, s0, Copy(1, y), cfg) == s1;
    OtherLooks(a, b.(clip := y), w, cfg);
    AnnouncesDown(a, seen, x, y, cfg);
    WritesBack(a, seen, w, y, cfg);
    RunFirst(PAIR, s3, DeliverDown(0, true), [], cfg);
    RunFirst(PAIR, s2, Announce(1), [DeliverDown(0, true)] + [], cfg);
    RunFirst(PAIR, s1, Check(1, true), [Announce(1)] + ([DeliverDown(0, true)] + []), cfg);
    actions := [Check(1, true)] + ([Announce(1)] + ([DeliverDown(0, true)] + []));
    RunFirst(PAIR, s0, Copy(1, y), actions, cfg);
    actions := [Copy(1, y)] + actions;
  }

  lemma OtherLooks(a: Node, b: Node, w: Wire, cfg: Config)
    requires b.firing.None? && Fires(b.watch, KeyOf(b.clip))
    ensures Enabled(PAIR, Two(a, b, w, [1]), Check(1, true))
    ensures Do(PAIR, Two(a, b, w, [1]), Check(1, true), cfg) ==
            Two(a, b.(watch := Observe(b.watch, KeyOf(b.clip)), firing := Some(b.clip)), w, [1])
  {
  }

  /** The client's note holds another key, so nothing keeps y from it. */
  lemma AnnouncesDown(a: Node, b: Node, x: Content, y: Content, cfg: Config)
    requires b.firing.None? && KeyOf(x) != KeyOf(y)
    ensures var s := Two(a, b.(firing := Some(y)), NotedLink(KeyOf(x)), [1]);
            Enabled(PAIR, s, Announce(1)) &&
            Do(PAIR, s, Announce(1), cfg) == Two(a, b, NotedLink(KeyOf(x)).(down := [y]), [1])
  {
    var w := NotedLink(KeyOf(x));
    var s := Two(a, b.(firing := Some(y)), w, [1]);
    var t := Do(PAIR, s, Announce(1), cfg);
    assert 0 !in Echoing(s.wires, KeyOf(y), s.now, cfg);
    assert t.nodes == [a, b] && t.wires[0] == w.(down := [y]);
    assert t.wires == [w.(down := [y])];
  }

  lemma WritesBack(a: Node, b: Node, w: Wire, y: Content, cfg: Config)
    requires Stable(y) && w.down == []
    ensures Enabled(PAIR, Two(a, b, w.(down := [y]), [1]), DeliverDown(0, true))
    ensures Do(PAIR, Two(a, b, w.(down := [y]), [1]), DeliverDown(0, true), cfg) ==
            Two(a.(clip := y, watch := Write(KeyOf(y))), b, w, [1])
  {
    var t := Do(PAIR, Two(a, b, w.(down := [y]), [1]), DeliverDown(0, true), cfg);
    assert Received(y) == Some(y) && [y][1..] == [];
    assert t.wires == [w];
    assert t.nodes == [a.(clip := y, watch := Write(KeyOf(y))), b];
  }

  /** A clip whose key the gate still holds is noted and dropped. */
  lemma Drops(a: Node, b: Node, x: Content, cfg: Config)
    requires Stable(x) && 0 < cfg.window && b.gate == Gate(KeyOf(x), At(0))
    ensures var s := Two(a, b, NotedLink(KeyOf(x)).(up := [x]), [1]);
            Enabled(PAIR, s, DeliverUp(0)) &&
            Do(PAIR, s, DeliverUp(0), cfg) == Two(a, b, NotedLink(KeyOf(x)), [1])
  {
    var t := Do(PAIR, Two(a, b, NotedLink(KeyOf(x)).(up := [x]), [1]), DeliverUp(0), cfg);
    assert Received(x) == Some(x) && [x][1..] == [];
    assert t.wires == [NotedLink(KeyOf(x))];
  }

  /** The gate still holds x: the second x is noted and dropped. */
  lemma IsSwallowed(a: Node, b: Node, x: Content, cfg: Config) returns (actions: seq<Action>)
    requires a.clip == x && a.firing.None? && Fires(a.watch, KeyOf(x)) && Stable(x) && 0 < cfg.window
    requires b.gate == Gate(KeyOf(x), At(0))
    ensures var s := Two(a, b, NotedLink(KeyOf(x)), [1]);
            Run(PAIR, s, actions, cfg) && AllSmooth(actions) &&
            After(PAIR, s, actions, cfg) ==
            Two(a.(watch := Observe(a.watch, KeyOf(x))), b, NotedLink(KeyOf(x)), [1])
  {
    var w, seen := NotedLink(KeyOf(x)), a.(watch := Observe(a.watch, KeyOf(x)));
    var s0 := Two(a, b, w, [1]);
    var s1 := Two(seen.(firing := Some(x)), b, w, [1]);
    var s2 := Two(seen, b, w.(up := [x]), [1]);
    Looks(a, b, w, [1], cfg);
    AnnouncesUp(seen, b, w, [1], x, cfg);
    Drops(seen, b, x, cfg);
    RunFirst(PAIR, s2, DeliverUp(0), [], cfg);
    RunFirst(PAIR, s1, Announce(0), [DeliverUp(0)] + [], cfg);
    RunFirst(PAIR, s0, Check(0, true), [Announce(0)] + ([DeliverUp(0)] + []), cfg);
    actions := [Check(0, true)] + ([Announce(0)] + ([DeliverUp(0)] + []));
  }

  lemma FirstServesSecond()
    ensures Served(PAIR, 0, {}, {}, 1)
  {
    assert OpenPath(PAIR, 0, [0], {});
  }

  /** The state in which x is copied for the second time. */
  function Between(x: Content, y: Content): State {
    Two(Node(CLOSED, y, Write(KeyOf(y)), None),
        Node(Gate(KeyOf(x), At(0)), y, Watch(KeyOf(y), KeyOf(x)), None), NotedLink(KeyOf(x)), [1])
  }

  lemma BetweenIsReached(x: Content, y: Content, z: Content, cfg: Config) returns (actions: seq<Action>)
    requires Rivals(x, y) && KeyOf(x) != KeyOf(z) && KeyOf(x) != NO_KEY
    ensures Run(PAIR, Uniform(PAIR, z), actions, cfg)
    ensures After(PAIR, Uniform(PAIR, z), actions, cfg) == Between(x, y)
  {
    var blank := Node(CLOSED, z, Watch(KeyOf(z), NO_KEY), None);
    var s0 := Uniform(PAIR, z);
    var link := LinkAll(PAIR, s0, cfg);
    var s1 := Two(blank, blank, LINKED, []);
    LinkedPair(s0, After(PAIR, s0, link, cfg), z);
    var s2 := Two(blank.(clip := x), blank, LINKED, []);
    assert Do(PAIR, s1, Copy(0, x), cfg) == s2;
    var across := Crosses(blank.(clip := x), blank, x, cfg);
    RunFirst(PAIR, s1, Copy(0, x), across, cfg);
    var s3 := After(PAIR, s2, across, cfg);
    var back := ComesBack(s3.nodes[0], s3.nodes[1], x, y, cfg);
    RunConcat(PAIR, s1, [Copy(0, x)] + across, back, cfg);
    RunConcat(PAIR, s0, link, [Copy(0, x)] + across + back, cfg);
    actions := link + ([Copy(0, x)] + across + back);
  }

  lemma LinkedPair(s0: State, s: State, z: Content)
    requires s0 == Uniform(PAIR, z) && Shaped(PAIR, s) && AllLinked(s)
    requires s.now == s0.now && s.nodes == s0.nodes && s.accepts == s0.accepts
    ensures var blank := Node(CLOSED, z, Watch(KeyOf(z), NO_KEY), None);
            s == Two(blank, blank, LINKED, [])
  {
    assert s.wires == [s.wires[0]] && s.nodes == [s.nodes[0], s.nodes[1]];
  }

  lemma BetweenRests(x: Content, y: Content)
    requires Rivals(x, y)
    ensures AtRest(PAIR, Between(x, y)) && Fires(Between(x, y).nodes[0].watch, KeyOf(x))
  {
  }

  lemma SettlesAsItIs(g: Topology, s: State, actions: seq<Action>, o: nat, c: Content, cfg: Config)
    requires Shaped(g, s) && Run(g, s, actions, cfg) && AllSmooth(actions)
    requires Settled(After(g, s, actions, cfg)) && After(g, s, actions, cfg).now == s.now
    ensures Settles(g, s, actions, o, c, cfg)
  {
  }

  lemma SwallowedBetween(x: Content, y: Content, cfg: Config) returns (after: seq<Action>)
    requires Rivals(x, y) && 0 < cfg.window
    ensures var copied := Do(PAIR, Between(x, y), Copy(0, x), cfg);
            && Settles(PAIR, copied, after, 0, x, cfg)
            && var t := After(PAIR, copied, after, cfg);
               t.now == 0 && t.nodes[0].clip == x && t.nodes[1].clip == y
  {
    var a, b := Node(CLOSED, x, Write(KeyOf(y)), None), Between(x, y).nodes[1];
    var copied := Do(PAIR, Between(x, y), Copy(0, x), cfg);
    assert copied == Two(a, b, NotedLink(KeyOf(x)), [1]);
    after := IsSwallowed(a, b, x, cfg);
    SettlesAsItIs(PAIR, copied, after, 0, x, cfg);
  }

  /**
   From a fresh start to a network at rest, where the watcher takes the copied x for new, and still a
   loss-free run, with no time passing, settles without it: the second daemon keeps y.
   */
  lemma SecondCopyIsSwallowed(x: Content, y: Content, z: Content, cfg: Config)
    returns (before: seq<Action>, after: seq<Action>)
    requires Rivals(x, y) && KeyOf(x) != KeyOf(z) && KeyOf(x) != NO_KEY && 0 < cfg.window
    ensures Run(PAIR, Uniform(PAIR, z), before, cfg)
    ensures var s := After(PAIR, Uniform(PAIR, z), before, cfg);
            && AtRest(PAIR, s) && Fires(s.nodes[0].watch, KeyOf(x)) && Served(PAIR, 0, {}, {}, 1)
            && var copied := Do(PAIR, s, Copy(0, x), cfg);
               && Settles(PAIR, copied, after, 0, x, cfg)
               && var t := After(PAIR, copied, after, cfg);
                  t.now == 0 && t.nodes[0].clip == x && t.nodes[1].clip == y
  {
    before := BetweenIsReached(x, y, z, cfg);
    BetweenRests(x, y);
    after := SwallowedBetween(x, y, cfg);
    FirstServesSecond();
  }
}
