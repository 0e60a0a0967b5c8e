/** Cycles in the dial graph, and the ranks a graph without them has. */
module DialGraph {
  import opened Prelude
  import opened Network

  /** Links that can be followed one after another, from dialling to dialled daemon. */
  predicate Chained(g: Topology, w: seq<nat>) {
    && (forall i :: 0 <= i < |w| ==> w[i] < |g.links|)
    && forall i :: 0 <= i < |w| - 1 ==> g.links[w[i]].server == g.links[w[i + 1]].dialer
  }

  predicate Closed(g: Topology, c: seq<nat>) {
    c != [] && Chained(g, c) && g.links[c[|c| - 1]].server == g.links[c[0]].dialer
  }

  function Servers(g: Topology, w: seq<nat>): seq<nat>
    requires Chained(g, w)
  {
    seq(|w|, i requires 0 <= i < |w| => g.links[w[i]].server)
  }

  predicate Cycle(g: Topology, c: seq<nat>) {
    Closed(g, c) && Distinct(Servers(g, c))
  }

  /** No daemon can be reached from itself by dialling. */
  ghost predicate Acyclic(g: Topology) {
    forall c :: !Cycle(g, c)
  }

  predicate Ranks(g: Topology, rank: seq<nat>) {
    && ValidTopology(g) && |rank| == g.nodes
    && forall l :: 0 <= l < |g.links| ==> rank[g.links[l].server] < rank[g.links[l].dialer]
  }

  // A long walk runs into itself

  lemma {:induction false} Below(n: nat) returns (s: set<nat>)
    ensures |s| == n && forall x: nat :: x in s <==> x < n
  {
    if n == 0 {
      s := {};
    } else {
      s := Below(n - 1);
      s := s + {n - 1};
    }
  }

  function Elements(xs: seq<nat>): set<nat> {
    set x | x in xs
  }

  lemma {:induction false} DistinctElements(xs: seq<nat>)
    requires Distinct(xs)
    ensures |Elements(xs)| == |xs|
    decreases |xs|
  {
    if xs != [] {
      var init, last := xs[..|xs| - 1], xs[|xs| - 1];
      DistinctElements(init);
      assert last !in Elements(init);
      assert Elements(xs) == Elements(init) + {last};
    }
  }

  lemma DistinctFit(xs: seq<nat>, n: nat)
    requires Distinct(xs) && forall i :: 0 <= i < |xs| ==> xs[i] < n
    ensures |xs| <= n
  {
    var s := Below(n);
    DistinctElements(xs);
    assert Elements(xs) <= s;
    assert s == Elements(xs) + (s - Elements(xs));
  }

  lemma ClosedSegment(g: Topology, w: seq<nat>, i: nat, j: nat)
    requires Chained(g, w) && i < j < |w| && g.links[w[i]].server == g.links[w[j]].server
    ensures Closed(g, w[i + 1..j + 1])
  {
    var c := w[i + 1..j + 1];
    forall k | 0 <= k < |c| - 1
      ensures g.links[c[k]].server == g.links[c[k + 1]].dialer
    {
      assert c[k] == w[i + 1 + k] && c[k + 1] == w[i + 2 + k];
    }
  }

  lemma {:induction false} ClosedHasCycle(g: Topology, c: seq<nat>) returns (d: seq<nat>)
    requires Closed(g, c)
    ensures Cycle(g, d)
    decreases |c|
  {
    var servers := Servers(g, c);
    if Distinct(servers) {
      d := c;
    } else {
      var i, j :| 0 <= i < j < |servers| && servers[i] == servers[j];
      ClosedSegment(g, c, i, j);
      d := ClosedHasCycle(g, c[i + 1..j + 1]);
    }
  }

  lemma LongWalkHasCycle(g: Topology, w: seq<nat>) returns (d: seq<nat>)
    requires ValidTopology(g) && Chained(g, w) && |w| > g.nodes
    ensures Cycle(g, d)
  {
    var servers := Servers(g, w);
    if Distinct(servers) {
      DistinctFit(servers, g.nodes);
    }
    var i, j :| 0 <= i < j < |servers| && servers[i] == servers[j];
    ClosedSegment(g, w, i, j);
    d := ClosedHasCycle(g, w[i + 1..j + 1]);
  }

  // The longest walk as a rank

  predicate WalkFrom(g: Topology, n: nat, w: seq<nat>) {
    Chained(g, w) && (w != [] ==> g.links[w[0]].dialer == n)
  }

  /** The longest walk of at most f links from n, using one of the first k links first. */
  function Height(g: Topology, n: nat, f: nat, k: nat): nat
    requires k <= |g.links|
    decreases f, k
  {
    if f == 0 || k == 0 then 0
    else
      var rest := Height(g, n, f, k - 1);
      var here := if g.links[k - 1].dialer == n then 1 + Height(g, g.links[k - 1].server, f - 1, |g.links|) else 0;
      if here > rest then here else rest
  }

  lemma {:induction false} HeightIsWalked(g: Topology, n: nat, f: nat, k: nat) returns (w: seq<nat>)
    requires k <= |g.links|
    ensures WalkFrom(g, n, w) && |w| == Height(g, n, f, k)
    decreases f, k
  {
    if f == 0 || k == 0 {
      w := [];
    } else if Height(g, n, f, k) == Height(g, n, f, k - 1) {
      w := HeightIsWalked(g, n, f, k - 1);
    } else {
      var rest := HeightIsWalked(g, g.links[k - 1].server, f - 1, |g.links|);
      w := [k - 1] + rest;
    }
  }

  lemma {:induction false} HeightGrows(g: Topology, n: nat, f: nat, j: nat, k: nat)
    requires f > 0 && j < k <= |g.links| && g.links[j].dialer == n
    ensures Height(g, n, f, k) >= 1 + Height(g, g.links[j].server, f - 1, |g.links|)
    decreases k
  {
    if j < k - 1 {
      HeightGrows(g, n, f, j, k - 1);
    }
  }

  lemma {:induction false} HeightBoundsWalks(g: Topology, n: nat, f: nat, w: seq<nat>)
    requires WalkFrom(g, n, w) && |w| <= f
    ensures Height(g, n, f, |g.links|) >= |w|
    decreases |w|
  {
    if w != [] {
      var rest, m := w[1..], g.links[w[0]].server;
      assert forall i :: 0 <= i < |rest| ==> rest[i] == w[i + 1];
      HeightBoundsWalks(g, m, f - 1, rest);
      HeightGrows(g, n, f, w[0], |g.links|);
    }
  }

  lemma DialsDownhill(g: Topology, l: nat)
    requires ValidTopology(g) && Acyclic(g) && l < |g.links|
    ensures var m := |g.links|;
            Height(g, g.links[l].server, g.nodes, m) < Height(g, g.links[l].dialer, g.nodes, m)
  {
    var w := HeightIsWalked(g, g.links[l].server, g.nodes, |g.links|);
    var longer := [l] + w;
    assert WalkFrom(g, g.links[l].dialer, longer);
    if |longer| > g.nodes {
      var _ := LongWalkHasCycle(g, longer);
    }
    HeightBoundsWalks(g, g.links[l].dialer, g.nodes, longer);
  }

  /** A dial graph without cycles can be ranked so that every daemon dials only lower ones. */
  lemma AcyclicHasRanks(g: Topology) returns (rank: seq<nat>)
    requires ValidTopology(g) && Acyclic(g)
    ensures Ranks(g, rank)
  {
    rank := seq(g.nodes, n requires 0 <= n < g.nodes => Height(g, n, g.nodes, |g.links|));
    forall l | 0 <= l < |g.links|
      ensures rank[g.links[l].server] < rank[g.links[l].dialer]
    {
      DialsDownhill(g, l);
    }
  }
}
