/**
 Where a network starts: daemons whose watchers have just taken their first look
 (src/internal/clip/watch.go:72-75), nothing accepted, no link up yet.
 */
module FreshNetwork {
  import opened Prelude
  import opened Codec
  import opened Gates
  import opened Watching
  import opened ServerSpec
  import opened Network

  const UNLINKED := Wire([], [], Idle, NO_NOTE, false, false)
  const LINKED := Wire([], [], Idle, NO_NOTE, true, true)

  predicate Fresh(g: Topology, s: State) {
    && Shaped(g, s) && s.accepts == []
    && (forall n :: 0 <= n < |s.nodes| ==> FreshNode(s.nodes[n]))
    && (forall l :: 0 <= l < |s.wires| ==> s.wires[l] == UNLINKED)
  }

  predicate FreshNode(node: Node) {
    node.gate == CLOSED && node.watch == Watch(KeyOf(node.clip), NO_KEY) && node.firing.None?
  }

  predicate AllLinked(s: State) {
    forall l :: 0 <= l < |s.wires| ==> s.wires[l] == LINKED
  }

  /** A state some run of the network gets to. */
  ghost predicate Reachable(g: Topology, s: State, cfg: Config) {
    exists s0, actions ::
      Fresh(g, s0) && Run(g, s0, actions, cfg) && After(g, s0, actions, cfg) == s
  }

  /** The first k links are up. */
  predicate LinkedUpTo(s: State, k: nat) {
    forall l :: 0 <= l < |s.wires| ==> s.wires[l] == if l < k then LINKED else UNLINKED
  }

  lemma LinkOne(g: Topology, s: State, k: nat, cfg: Config) returns (t: State)
    requires Shaped(g, s) && k < |s.wires| && LinkedUpTo(s, k)
    ensures Enabled(g, s, SetClient(k, true)) && Enabled(g, Do(g, s, SetClient(k, true), cfg), SetPeer(k, true))
    ensures t == Do(g, Do(g, s, SetClient(k, true), cfg), SetPeer(k, true), cfg)
    ensures Shaped(g, t) && LinkedUpTo(t, k + 1)
    ensures t.now == s.now && t.nodes == s.nodes && t.accepts == s.accepts
  {
    t := Do(g, Do(g, s, SetClient(k, true), cfg), SetPeer(k, true), cfg);
  }

  lemma {:induction false} LinkRest(g: Topology, s: State, k: nat, cfg: Config) returns (actions: seq<Action>)
    requires Shaped(g, s) && k <= |s.wires| && LinkedUpTo(s, k)
    ensures Run(g, s, actions, cfg)
    ensures var t := After(g, s, actions, cfg);
            AllLinked(t) && t.now == s.now && t.nodes == s.nodes && t.accepts == s.accepts
    decreases |s.wires| - k
  {
    if k == |s.wires| {
      actions := [];
    } else {
      var t := LinkOne(g, s, k, cfg);
      var rest := LinkRest(g, t, k + 1, cfg);
      var mid := Do(g, s, SetClient(k, true), cfg);
      RunFirst(g, mid, SetPeer(k, true), rest, cfg);
      RunFirst(g, s, SetClient(k, true), [SetPeer(k, true)] + rest, cfg);
      actions := [SetClient(k, true)] + ([SetPeer(k, true)] + rest);
    }
  }

  /** Every peer connects. */
  lemma LinkAll(g: Topology, s: State, cfg: Config) returns (actions: seq<Action>)
    requires Fresh(g, s)
    ensures Run(g, s, actions, cfg)
    ensures var t := After(g, s, actions, cfg);
            AllLinked(t) && t.now == s.now && t.nodes == s.nodes && t.accepts == s.accepts
  {
    actions := LinkRest(g, s, 0, cfg);
  }

  /** Daemons that all hold the same content. */
  function Uniform(g: Topology, clip: Content): (s: State)
    requires ValidTopology(g)
    ensures Fresh(g, s) && forall n :: 0 <= n < |s.nodes| ==> s.nodes[n].clip == clip
  {
    State(0, seq(g.nodes, _ => Node(CLOSED, clip, Watch(KeyOf(clip), NO_KEY), None)), seq(|g.links|, _ => UNLINKED), [])
  }
}
