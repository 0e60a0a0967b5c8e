/**
 A change from start to finish. At a network at rest somebody copies something at one daemon. The
 watcher announces it if neither of its hashes has its key (src/internal/clip/watch.go:141-146), and
 then it gets to exactly the daemons served through gates and links that are open to it
 (src/internal/websocket/handlers.go:132, broadcast.go:46-50).
 */
module FloodOutcome {
  import opened Prelude
  import opened Codec
  import opened Gates
  import opened Watching
  import opened ServerSpec
  import opened Network
  import opened NetworkLoad
  import opened FreshNetwork
  import opened Coverage
  import opened FloodReach
  import opened FloodRuns

  // The log of acceptances is only a log

  lemma StepForgets(g: Topology, s: State, a: Action, log: seq<nat>, cfg: Config) returns (after: seq<nat>)
    requires Shaped(g, s) && Enabled(g, s, a)
    ensures Enabled(g, s.(accepts := log), a)
    ensures Do(g, s.(accepts := log), a, cfg) == Do(g, s, a, cfg).(accepts := after)
  {
    after := Do(g, s.(accepts := log), a, cfg).accepts;
    match a
    case DeliverUp(_) =>
    case WriteClip(_, _) =>
    case Relay(_) =>
    case DeliverDown(_, _) =>
    case Check(_, _) =>
    case Announce(_) =>
    case _ =>
  }

  lemma {:induction false} RunForgets(g: Topology, s: State, actions: seq<Action>, log: seq<nat>, cfg: Config)
    returns (after: seq<nat>)
    requires Shaped(g, s) && Run(g, s, actions, cfg)
    ensures Run(g, s.(accepts := log), actions, cfg)
    ensures After(g, s.(accepts := log), actions, cfg) == After(g, s, actions, cfg).(accepts := after)
    decreases |actions|
  {
    if actions == [] {
      after := log;
    } else {
      var mid := StepForgets(g, s, actions[0], log, cfg);
      after := RunForgets(g, Do(g, s, actions[0], cfg), actions[1..], mid, cfg);
      RunFirst(g, s.(accepts := log), actions[0], actions[1..], cfg);
      assert [actions[0]] + actions[1..] == actions;
    }
  }

  // Rest

  /** Every link is up, nothing is under way and every watcher knows its clipboard. Any gate may be shut. */
  predicate AtRest(g: Topology, s: State)
    requires Shaped(g, s)
  {
    && Settled(s)
    && (forall l :: 0 <= l < |s.wires| ==> s.wires[l].client && s.wires[l].peer)
  }

  predicate Settled(s: State) {
    Quiescent(s) && forall n :: 0 <= n < |s.nodes| ==> !Unseen(s.nodes[n])
  }

  /** A loss-free run to rest, over before any gate shut to c opens or any note that mutes a link wears out. */
  predicate Settles(g: Topology, s: State, actions: seq<Action>, o: nat, c: Content, cfg: Config)
    requires Shaped(g, s)
  {
    && Run(g, s, actions, cfg) && AllSmooth(actions)
    && Settled(After(g, s, actions, cfg))
    && StillClosed(g, s, o, c, After(g, s, actions, cfg).now, cfg)
  }

  /** Who holds c after such a run. */
  ghost predicate Delivers(g: Topology, s: State, actions: seq<Action>, o: nat, c: Content, cfg: Config)
    requires Shaped(g, s) && Run(g, s, actions, cfg)
  {
    var shut, muted := ShutAt(s, c, s.now, cfg), MutedAt(g, s, o, c, s.now, cfg);
    forall n: nat :: n < g.nodes ==>
      (Has(After(g, s, actions, cfg), n, c) <==> Has(s, n, c) || Served(g, o, shut, muted, n))
  }

  // Once announced

  /** From any announcement there is such a run, and no time need pass. */
  lemma FloodDelivers(g: Topology, s: State, o: nat, c: Content, cfg: Config) returns (actions: seq<Action>)
    requires Shaped(g, s) && Start(g, s, o, c) && Stable(c) && !TooBig(c, cfg) && 0 < cfg.window
    ensures Settles(g, s, actions, o, c, cfg) && Delivers(g, s, actions, o, c, cfg)
    ensures After(g, s, actions, cfg).now == s.now
  {
    var shut := ShutAt(s, c, s.now, cfg);
    actions := FloodCompletes(g, s, [], o, c, cfg);
    assert [] + actions == actions;
    StartSpreads(g, s, o, c, cfg);
    StartSpent(g, s, o, c, cfg);
    PaidSoFar(g, s, actions, o, c, shut, s.now, cfg);
    SpreadingKnows(g, After(g, s, actions, cfg), o, c, shut, cfg);
    AnnouncedDelivers(g, s, actions, o, c, cfg);
  }

  lemma SpreadingKnows(g: Topology, s: State, o: nat, c: Content, shut: set<nat>, cfg: Config)
    requires Shaped(g, s) && Spreading(g, s, o, c, shut, cfg)
    ensures forall n :: 0 <= n < |s.nodes| ==> !Unseen(s.nodes[n])
  {
    forall n | 0 <= n < |s.nodes|
      ensures !Unseen(s.nodes[n])
    {
      assert NodeHolds(s.nodes[n], c);
    }
  }

  /** And every such run delivers alike. */
  lemma AnnouncedDelivers(g: Topology, s: State, actions: seq<Action>, o: nat, c: Content, cfg: Config)
    requires Shaped(g, s) && Start(g, s, o, c) && Stable(c) && !TooBig(c, cfg)
    requires Settles(g, s, actions, o, c, cfg)
    ensures Delivers(g, s, actions, o, c, cfg)
  {
    forall n: nat | n < g.nodes
      ensures Has(After(g, s, actions, cfg), n, c)
         <==> Has(s, n, c) || Served(g, o, ShutAt(s, c, s.now, cfg), MutedAt(g, s, o, c, s.now, cfg), n)
    {
      FloodReachesExactly(g, s, actions, o, c, n, cfg);
    }
  }

  // Copied, to be noticed

  /** Somebody copied c at the origin; its watcher has not looked, and would announce it. */
  predicate Pending(g: Topology, s: State, o: nat, c: Content)
    requires Shaped(g, s)
  {
    && Quiescent(s) && o < |s.nodes| && s.nodes[o].clip == c && Fires(s.nodes[o].watch, KeyOf(c))
    && (forall l :: 0 <= l < |s.wires| ==> s.wires[l].client && s.wires[l].peer)
    && (forall n :: 0 <= n < |s.nodes| && n != o ==> !Unseen(s.nodes[n]))
  }

  lemma CopyIsPending(g: Topology, s: State, o: nat, c: Content, cfg: Config)
    requires Shaped(g, s) && AtRest(g, s) && o < |s.nodes| && Fires(s.nodes[o].watch, KeyOf(c))
    ensures Pending(g, Do(g, s, Copy(o, c), cfg), o, c)
  {
  }

  /** The state after the watcher has looked, its acceptances counted from there. */
  function Noticed(g: Topology, s: State, o: nat, c: Content): (t: State)
    requires Shaped(g, s) && Pending(g, s, o, c)
    ensures Shaped(g, t)
  {
    s.(nodes := s.nodes[o := s.nodes[o].(watch := Observe(s.nodes[o].watch, KeyOf(c)), firing := Some(c))],
       accepts := [])
  }

  lemma NoticedStarts(g: Topology, s: State, o: nat, c: Content, cfg: Config)
    requires Shaped(g, s) && Pending(g, s, o, c)
    ensures Start(g, Noticed(g, s, o, c), o, c)
    ensures Enabled(g, s, Check(o, true))
    ensures Do(g, s, Check(o, true), cfg) == Noticed(g, s, o, c).(accepts := s.accepts)
  {
  }

  /** Looking changes no gate, no note and no clipboard. */
  lemma NoticedIsAlike(g: Topology, s: State, o: nat, c: Content, end: int, cfg: Config)
    requires Shaped(g, s) && Pending(g, s, o, c)
    ensures var t := Noticed(g, s, o, c);
            && t.now == s.now
            && ShutAt(t, c, end, cfg) == ShutAt(s, c, end, cfg)
            && MutedAt(g, t, o, c, end, cfg) == MutedAt(g, s, o, c, end, cfg)
            && forall n: nat :: Has(t, n, c) <==> Has(s, n, c)
  {
    var t := Noticed(g, s, o, c);
    assert forall n :: 0 <= n < |s.nodes| ==> t.nodes[n].gate == s.nodes[n].gate && t.nodes[n].clip == s.nodes[n].clip;
  }

  lemma CheckedAlready(node: Node)
    requires !Unseen(node) && node.firing.None?
    ensures Observed(node) == node
  {
  }

  /** Until the watcher looks there is nothing to do but wait. */
  lemma PendingWaits(g: Topology, s: State, a: Action, o: nat, c: Content, cfg: Config)
    requires Shaped(g, s) && Pending(g, s, o, c) && Enabled(g, s, a) && Smooth(a) && a != Check(o, true)
    ensures Do(g, s, a, cfg) == s.(now := Do(g, s, a, cfg).now) && Do(g, s, a, cfg).now >= s.now
  {
    match a
    case Check(n, ok) =>
      if ok {
        CheckedAlready(s.nodes[n]);
        assert s.nodes[n := s.nodes[n]] == s.nodes;
      }
    case Tick(_) =>
    case _ => assert false;
  }

  lemma LaterIsAlike(g: Topology, s: State, now: int, o: nat, c: Content, end: int, cfg: Config)
    requires Shaped(g, s) && Pending(g, s, o, c) && s.now <= now <= end && StillClosed(g, s, o, c, end, cfg)
    ensures var t := s.(now := now);
            && Pending(g, t, o, c) && StillClosed(g, t, o, c, end, cfg)
            && ShutAt(t, c, now, cfg) == ShutAt(s, c, s.now, cfg)
            && MutedAt(g, t, o, c, now, cfg) == MutedAt(g, s, o, c, s.now, cfg)
  {
    var t := s.(now := now);
    assert ShutAt(t, c, end, cfg) <= ShutAt(t, c, now, cfg) <= ShutAt(s, c, s.now, cfg);
    assert MutedAt(g, t, o, c, end, cfg) <= MutedAt(g, t, o, c, now, cfg) <= MutedAt(g, s, o, c, s.now, cfg);
  }

  /** The run from the look on, with the earlier acceptances forgotten. */
  lemma LookedSettles(g: Topology, s: State, rest: seq<Action>, o: nat, c: Content, cfg: Config)
    requires Shaped(g, s) && Pending(g, s, o, c) && Stable(c) && !TooBig(c, cfg)
    requires Run(g, Do(g, s, Check(o, true), cfg), rest, cfg) && AllSmooth(rest)
    requires var t := After(g, Do(g, s, Check(o, true), cfg), rest, cfg);
             Settled(t) && StillClosed(g, s, o, c, t.now, cfg)
    ensures var t := After(g, Do(g, s, Check(o, true), cfg), rest, cfg);
            forall n: nat :: n < g.nodes ==>
              (Has(t, n, c) <==>
               Has(s, n, c) || Served(g, o, ShutAt(s, c, s.now, cfg), MutedAt(g, s, o, c, s.now, cfg), n))
  {
    var looked, start := Do(g, s, Check(o, true), cfg), Noticed(g, s, o, c);
    NoticedStarts(g, s, o, c, cfg);
    var log := RunForgets(g, looked, rest, [], cfg);
    assert looked.(accepts := []) == start;
    var t := After(g, start, rest, cfg);
    assert t == After(g, looked, rest, cfg).(accepts := log);
    NoticedIsAlike(g, s, o, c, s.now, cfg);
    NoticedIsAlike(g, s, o, c, t.now, cfg);
    AnnouncedDelivers(g, start, rest, o, c, cfg);
  }

  /** However long the watcher takes to look: what it would announce gets to exactly those served. */
  lemma {:induction false} PendingDelivers(g: Topology, s: State, actions: seq<Action>, o: nat, c: Content, cfg: Config)
    requires Shaped(g, s) && Pending(g, s, o, c) && Settles(g, s, actions, o, c, cfg)
    requires Stable(c) && !TooBig(c, cfg)
    ensures Delivers(g, s, actions, o, c, cfg)
    decreases |actions|
  {
    if actions == [] {
      assert Unseen(s.nodes[o]);
    } else {
      var a, rest := actions[0], actions[1..];
      assert Smooth(a);
      assert forall i :: 0 <= i < |rest| ==> rest[i] == actions[i + 1];
      if a == Check(o, true) {
        LookedSettles(g, s, rest, o, c, cfg);
      } else {
        var t := Do(g, s, a, cfg);
        PendingWaits(g, s, a, o, c, cfg);
        NeverEarlier(g, t, rest, cfg);
        LaterIsAlike(g, s, t.now, o, c, After(g, t, rest, cfg).now, cfg);
        PendingDelivers(g, t, rest, o, c, cfg);
      }
    }
  }

  /** And there is such a run, with no time passing. */
  lemma PendingCanSettle(g: Topology, s: State, o: nat, c: Content, cfg: Config) returns (actions: seq<Action>)
    requires Shaped(g, s) && Pending(g, s, o, c) && Stable(c) && !TooBig(c, cfg) && 0 < cfg.window
    ensures Settles(g, s, actions, o, c, cfg) && Delivers(g, s, actions, o, c, cfg)
  {
    var start := Noticed(g, s, o, c);
    NoticedStarts(g, s, o, c, cfg);
    var rest := FloodDelivers(g, start, o, c, cfg);
    var log := RunForgets(g, start, rest, s.accepts, cfg);
    RunFirst(g, s, Check(o, true), rest, cfg);
    actions := [Check(o, true)] + rest;
    SmoothFirst(Check(o, true), rest);
    PendingDelivers(g, s, actions, o, c, cfg);
  }

  lemma SmoothFirst(a: Action, rest: seq<Action>)
    requires Smooth(a) && AllSmooth(rest)
    ensures AllSmooth([a] + rest)
  {
  }

  // Copied, not to be noticed

  /** Nothing is under way and no watcher would report what is on its clipboard. */
  predicate Hushed(s: State) {
    && (forall l :: 0 <= l < |s.wires| ==> s.wires[l].up == [] && s.wires[l].down == [] && s.wires[l].serving.Idle?)
    && (forall n :: 0 <= n < |s.nodes| ==> HushedNode(s.nodes[n]))
  }

  predicate HushedNode(node: Node) {
    node.firing.None? && !Fires(node.watch, KeyOf(node.clip))
  }

  predicate SameClips(s: State, t: State) {
    |s.nodes| == |t.nodes| && forall n :: 0 <= n < |s.nodes| ==> t.nodes[n].clip == s.nodes[n].clip
  }

  lemma HushedStep(g: Topology, s: State, a: Action, cfg: Config)
    requires Shaped(g, s) && Hushed(s) && Enabled(g, s, a) && !a.Copy? && !a.Send?
    ensures Hushed(Do(g, s, a, cfg)) && SameClips(s, Do(g, s, a, cfg)) && !IsDelivery(a)
  {
    match a
    case Check(n, _) => assert HushedNode(s.nodes[n]);
    case SetClient(_, _) =>
    case SetPeer(_, _) =>
    case Tick(_) =>
    case _ => assert false;
  }

  /** Whatever fails, comes and goes: while nobody copies or sends anything more, nothing is delivered anywhere. */
  lemma {:induction false} AlwaysHushed(g: Topology, s: State, actions: seq<Action>, cfg: Config)
    requires Shaped(g, s) && Hushed(s) && Run(g, s, actions, cfg) && NothingNew(actions)
    ensures Hushed(After(g, s, actions, cfg)) && SameClips(s, After(g, s, actions, cfg))
    ensures Deliveries(actions) == 0
    decreases |actions|
  {
    if actions != [] {
      assert !actions[0].Copy? && !actions[0].Send?;
      assert forall i :: 0 <= i < |actions| - 1 ==> actions[1..][i] == actions[i + 1];
      HushedStep(g, s, actions[0], cfg);
      AlwaysHushed(g, Do(g, s, actions[0], cfg), actions[1..], cfg);
    }
  }

  lemma UnnoticedIsHushed(g: Topology, s: State, o: nat, c: Content, cfg: Config)
    requires Shaped(g, s) && AtRest(g, s) && o < |s.nodes| && !Fires(s.nodes[o].watch, KeyOf(c))
    ensures Hushed(Do(g, s, Copy(o, c), cfg))
  {
    var t := Do(g, s, Copy(o, c), cfg);
    forall n | 0 <= n < |t.nodes|
      ensures HushedNode(t.nodes[n])
    {
      assert !Unseen(s.nodes[n]);
    }
  }

  /** A copy whose key the watcher holds already, as its last or its own, stays where it is. */
  lemma UnnoticedStays(g: Topology, s: State, o: nat, c: Content, actions: seq<Action>, cfg: Config)
    requires Shaped(g, s) && AtRest(g, s) && o < |s.nodes| && !Fires(s.nodes[o].watch, KeyOf(c))
    requires Run(g, Do(g, s, Copy(o, c), cfg), actions, cfg) && NothingNew(actions)
    ensures Deliveries(actions) == 0
    ensures SameClips(Do(g, s, Copy(o, c), cfg), After(g, Do(g, s, Copy(o, c), cfg), actions, cfg))
  {
    UnnoticedIsHushed(g, s, o, c, cfg);
    AlwaysHushed(g, Do(g, s, Copy(o, c), cfg), actions, cfg);
  }

  /** One look and the network has settled again. */
  lemma UnnoticedCanSettle(g: Topology, s: State, o: nat, c: Content, cfg: Config)
    requires Shaped(g, s) && AtRest(g, s) && o < |s.nodes| && !Fires(s.nodes[o].watch, KeyOf(c))
    ensures Settles(g, Do(g, s, Copy(o, c), cfg), [Check(o, true)], o, c, cfg)
  {
    var copied := Do(g, s, Copy(o, c), cfg);
    var t := Do(g, copied, Check(o, true), cfg);
    RunFirst(g, copied, Check(o, true), [], cfg);
    assert [Check(o, true)] + [] == [Check(o, true)];
    forall n | 0 <= n < |t.nodes|
      ensures !Unseen(t.nodes[n])
    {
      assert !Unseen(s.nodes[n]);
    }
  }

  // Exactly when

  /** Everyone whom the dial graph lets the origin serve holds c. */
  ghost predicate AllServed(g: Topology, s: State, o: nat, c: Content)
    requires Shaped(g, s)
  {
    forall n: nat :: n < g.nodes && Served(g, o, {}, {}, n) ==> Has(s, n, c)
  }

  /** n holds c, or will: the watcher takes it for new and it gets there through what is open. */
  ghost predicate GetsIt(g: Topology, s: State, o: nat, c: Content, n: nat, cfg: Config)
    requires Shaped(g, s) && o < |s.nodes|
  {
    || Has(s, n, c)
    || (Fires(s.nodes[o].watch, KeyOf(c))
        && Served(g, o, ShutAt(s, c, s.now, cfg), MutedAt(g, s, o, c, s.now, cfg), n))
  }

  /** What becomes of a copy, in every run. */
  lemma CopyOutcome(g: Topology, s: State, o: nat, c: Content, actions: seq<Action>, cfg: Config)
    requires Shaped(g, s) && AtRest(g, s) && o < |s.nodes| && Stable(c) && !TooBig(c, cfg)
    requires Settles(g, Do(g, s, Copy(o, c), cfg), actions, o, c, cfg)
    ensures var copied := Do(g, s, Copy(o, c), cfg);
            forall n: nat :: n < g.nodes ==>
              (Has(After(g, copied, actions, cfg), n, c) <==> GetsIt(g, copied, o, c, n, cfg))
  {
    if Fires(s.nodes[o].watch, KeyOf(c)) {
      CopyIsPending(g, s, o, c, cfg);
      PendingDelivers(g, Do(g, s, Copy(o, c), cfg), actions, o, c, cfg);
    } else {
      SmoothAddsNothing(actions, KeyOf(c));
      UnnoticedStays(g, s, o, c, actions, cfg);
    }
  }

  ghost predicate AlwaysGetsRound(g: Topology, s: State, o: nat, c: Content, cfg: Config)
    requires Shaped(g, s)
  {
    forall actions :: Settles(g, s, actions, o, c, cfg) ==> AllServed(g, After(g, s, actions, cfg), o, c)
  }

  ghost predicate SometimesGetsRound(g: Topology, s: State, o: nat, c: Content, cfg: Config)
    requires Shaped(g, s)
  {
    exists actions :: Settles(g, s, actions, o, c, cfg) && AllServed(g, After(g, s, actions, cfg), o, c)
  }

  /**
   While what is shut stays shut, a change copied at a network at rest gets round in every run, and
   in any run at all, exactly when everyone it should get to holds it already, or its watcher takes
   it for new and each of them is reached through open gates and links.
   */
  lemma CopyGetsRoundIff(g: Topology, s: State, o: nat, c: Content, cfg: Config)
    requires Shaped(g, s) && AtRest(g, s) && o < |s.nodes|
    requires Stable(c) && !TooBig(c, cfg) && 0 < cfg.window
    ensures var copied := Do(g, s, Copy(o, c), cfg);
            var all := forall n: nat :: n < g.nodes && Served(g, o, {}, {}, n) ==> GetsIt(g, copied, o, c, n, cfg);
            && (AlwaysGetsRound(g, copied, o, c, cfg) <==> all)
            && (SometimesGetsRound(g, copied, o, c, cfg) <==> all)
  {
    var copied := Do(g, s, Copy(o, c), cfg);
    var some: seq<Action>;
    if Fires(s.nodes[o].watch, KeyOf(c)) {
      CopyIsPending(g, s, o, c, cfg);
      some := PendingCanSettle(g, copied, o, c, cfg);
    } else {
      UnnoticedCanSettle(g, s, o, c, cfg);
      some := [Check(o, true)];
    }
    assert Settles(g, copied, some, o, c, cfg);
    forall actions | Settles(g, copied, actions, o, c, cfg)
      ensures forall n: nat :: n < g.nodes ==>
                (Has(After(g, copied, actions, cfg), n, c) <==> GetsIt(g, copied, o, c, n, cfg))
    {
      CopyOutcome(g, s, o, c, actions, cfg);
    }
  }

  // Waiting it out

  lemma {:induction false} GatesOpen(s: State, c: Content, k: nat, cfg: Config) returns (d: nat)
    requires k <= |s.nodes|
    ensures forall n, later :: 0 <= n < k && s.now + d <= later ==>
              !IsEcho(s.nodes[n].gate, KeyOf(c), later, cfg.window)
  {
    if k == 0 {
      d := 0;
    } else {
      d := GatesOpen(s, c, k - 1, cfg);
      var at := s.nodes[k - 1].gate.at;
      if at.At? && d < at.time + cfg.window - s.now {
        d := at.time + cfg.window - s.now;
      }
    }
  }

  lemma {:induction false} NotesWearOut(s: State, c: Content, k: nat, cfg: Config) returns (d: nat)
    requires k <= |s.wires|
    ensures forall l, later :: 0 <= l < k && s.now + d <= later ==>
              !RecentlySent(s.wires[l].note, KeyOf(c), later, cfg.window)
  {
    if k == 0 {
      d := 0;
    } else {
      d := NotesWearOut(s, c, k - 1, cfg);
      var at := s.wires[k - 1].note.at;
      if at.At? && d < at.time + cfg.window - s.now {
        d := at.time + cfg.window - s.now;
      }
    }
  }

  /** If only the watcher takes its time, nothing is left in the way of what it will announce. */
  lemma WaitedOut(g: Topology, s: State, o: nat, c: Content, cfg: Config) returns (d: nat)
    requires Shaped(g, s)
    ensures ShutAt(s, c, s.now + d, cfg) == {} && MutedAt(g, s, o, c, s.now + d, cfg) == {}
  {
    var gates := GatesOpen(s, c, |s.nodes|, cfg);
    var notes := NotesWearOut(s, c, |s.wires|, cfg);
    d := gates + notes;
  }

  ghost predicate GetsRoundInTime(g: Topology, s: State, actions: seq<Action>, o: nat, c: Content, cfg: Config)
    requires Shaped(g, s)
  {
    Run(g, s, actions, cfg) && AllSmooth(actions) && Settled(After(g, s, actions, cfg))
    && AllServed(g, After(g, s, actions, cfg), o, c)
  }

  lemma PendingGetsRoundInTime(g: Topology, s: State, o: nat, c: Content, cfg: Config) returns (actions: seq<Action>)
    requires Shaped(g, s) && Pending(g, s, o, c) && Stable(c) && !TooBig(c, cfg) && 0 < cfg.window
    ensures GetsRoundInTime(g, s, actions, o, c, cfg)
  {
    var d := WaitedOut(g, s, o, c, cfg);
    var t := Do(g, s, Tick(d), cfg);
    assert ShutAt(t, c, t.now, cfg) == ShutAt(s, c, s.now + d, cfg);
    assert MutedAt(g, t, o, c, t.now, cfg) == MutedAt(g, s, o, c, s.now + d, cfg);
    var rest := PendingCanSettle(g, t, o, c, cfg);
    RunFirst(g, s, Tick(d), rest, cfg);
    SmoothFirst(Tick(d), rest);
    actions := [Tick(d)] + rest;
  }

  /**
   With time to wait, a copy can get round exactly when its watcher takes it for new, or there is
   nobody left to get it.
   */
  lemma CopyCanGetRoundIff(g: Topology, s: State, o: nat, c: Content, cfg: Config)
    requires Shaped(g, s) && AtRest(g, s) && o < |s.nodes|
    requires Stable(c) && !TooBig(c, cfg) && 0 < cfg.window
    ensures var copied := Do(g, s, Copy(o, c), cfg);
            (exists actions :: GetsRoundInTime(g, copied, actions, o, c, cfg))
            <==> Fires(s.nodes[o].watch, KeyOf(c)) || AllServed(g, copied, o, c)
  {
    var copied := Do(g, s, Copy(o, c), cfg);
    if Fires(s.nodes[o].watch, KeyOf(c)) {
      CopyIsPending(g, s, o, c, cfg);
      var actions := PendingGetsRoundInTime(g, copied, o, c, cfg);
    } else {
      UnnoticedCanSettle(g, s, o, c, cfg);
      forall actions | Run(g, copied, actions, cfg) && AllSmooth(actions)
        ensures SameClips(copied, After(g, copied, actions, cfg))
      {
        SmoothAddsNothing(actions, KeyOf(c));
        UnnoticedStays(g, s, o, c, actions, cfg);
      }
      if AllServed(g, copied, o, c) {
        assert GetsRoundInTime(g, copied, [Check(o, true)], o, c, cfg);
      }
    }
  }

  // From the very start

  lemma FreshIsAtRest(g: Topology, s0: State, s: State, o: nat, c: Content, cfg: Config)
    requires Fresh(g, s0) && Shaped(g, s) && AllLinked(s) && s.nodes == s0.nodes
    ensures AtRest(g, s) && ShutAt(s, c, s.now, cfg) == {} && MutedAt(g, s, o, c, s.now, cfg) == {}
  {
    forall n | 0 <= n < |s.nodes|
      ensures !Unseen(s.nodes[n]) && s.nodes[n].firing.None? && s.nodes[n].gate == CLOSED
    {
      assert FreshNode(s0.nodes[n]);
    }
    forall l | 0 <= l < |s.wires|
      ensures s.wires[l] == LINKED
    {
    }
  }

  /**
   On any fresh network: its links come up, somebody copies c at one of its daemons, and c gets round
   to everyone that daemon serves, provided its key is neither that of what was there before nor the
   zero with which the watcher's skip hash starts.
   */
  lemma ChangeHappens(g: Topology, s0: State, o: nat, c: Content, cfg: Config)
    returns (link: seq<Action>, rest: seq<Action>)
    requires Fresh(g, s0) && o < g.nodes && Stable(c) && !TooBig(c, cfg) && 0 < cfg.window
    requires KeyOf(c) != KeyOf(s0.nodes[o].clip) && KeyOf(c) != NO_KEY
    ensures Run(g, s0, link, cfg)
    ensures var s := After(g, s0, link, cfg);
            && Enabled(g, s, Copy(o, c))
            && var copied := Do(g, s, Copy(o, c), cfg);
               && (forall n: nat :: n < g.nodes ==> (Has(copied, n, c) <==> n == o || Has(s0, n, c)))
               && Settles(g, copied, rest, o, c, cfg)
               && forall n: nat :: n < g.nodes ==>
                    (Has(After(g, copied, rest, cfg), n, c) <==> Has(copied, n, c) || Served(g, o, {}, {}, n))
  {
    link := LinkAll(g, s0, cfg);
    var s := After(g, s0, link, cfg);
    FreshIsAtRest(g, s0, s, o, c, cfg);
    assert FreshNode(s0.nodes[o]);
    CopyIsPending(g, s, o, c, cfg);
    CopyKeepsGates(g, s, o, c, cfg);
    rest := PendingCanSettle(g, Do(g, s, Copy(o, c), cfg), o, c, cfg);
  }

  lemma CopyKeepsGates(g: Topology, s: State, o: nat, c: Content, cfg: Config)
    requires Shaped(g, s) && o < |s.nodes|
    ensures var t := Do(g, s, Copy(o, c), cfg);
            && t.now == s.now
            && ShutAt(t, c, t.now, cfg) == ShutAt(s, c, s.now, cfg)
            && MutedAt(g, t, o, c, t.now, cfg) == MutedAt(g, s, o, c, s.now, cfg)
  {
    var t := Do(g, s, Copy(o, c), cfg);
    assert forall n :: 0 <= n < |s.nodes| ==> t.nodes[n].gate == s.nodes[n].gate;
  }
}
