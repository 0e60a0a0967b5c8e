/**
 Threads that take and drop mutexes. If every thread only ever takes a lock that ranks above all
 it holds, and drops all of them in the end, then no set of threads can wait on each other: from
 every reachable state some thread can go on until all are done.
 */
module Locks {
  import opened Prelude

  /**
   Every mutex of the program but the Windows notifier's: the one-shot's `once`, `s.mu`, `c.mu`,
   `pc.connMu`, `w.mu` and `idMu`.
   */
  datatype Lock = Once | ServerMu | ClientMu(id: nat) | ConnMu(slot: nat) | WatcherMu | IdMu

  datatype Op = Take(l: Lock) | Drop(l: Lock)

  datatype Thread = Thread(held: set<Lock>, script: seq<Op>)

  type Threads = seq<Thread>

  const TOP: nat := 2

  function Rank(l: Lock): (r: nat)
    ensures r <= TOP
  {
    match l
    case Once => 0
    case ServerMu => 1
    case _ => 2
  }

  /** l ranks above every lock held, so in particular it is not held. */
  predicate Above(held: set<Lock>, l: Lock) {
    forall h :: h in held ==> Rank(h) < Rank(l)
  }

  /** What a thread holds after the script, or None if it takes a lock out of order or drops one it has not. */
  function Holding(held: set<Lock>, script: seq<Op>): Option<set<Lock>>
    decreases |script|
  {
    if script == [] then Some(held)
    else match script[0]
      case Take(l) => if Above(held, l) then Holding(held + {l}, script[1..]) else None
      case Drop(l) => if l in held then Holding(held - {l}, script[1..]) else None
  }

  /** The script respects the order when entered holding `held`, and leaves with just that. */
  predicate Keeps(held: set<Lock>, script: seq<Op>) {
    Holding(held, script) == Some(held)
  }

  predicate Ordered(t: Thread) {
    Holding(t.held, t.script) == Some({})
  }

  predicate Exclusive(s: Threads) {
    forall i, j :: 0 <= i < j < |s| ==> s[i].held !! s[j].held
  }

  predicate Sound(s: Threads) {
    Exclusive(s) && forall i :: 0 <= i < |s| ==> Ordered(s[i])
  }

  /** No thread holds l. */
  predicate Free(s: Threads, l: Lock) {
    forall i :: 0 <= i < |s| ==> l !in s[i].held
  }

  predicate Enabled(s: Threads, i: nat) {
    && i < |s| && s[i].script != []
    && (s[i].script[0].Take? ==> Free(s, s[i].script[0].l))
  }

  function Do(s: Threads, i: nat): Threads
    requires Enabled(s, i)
  {
    var t := s[i];
    s[i := Thread(match t.script[0] case Take(l) => t.held + {l} case Drop(l) => t.held - {l}, t.script[1..])]
  }

  predicate Run(s: Threads, schedule: seq<nat>)
    decreases |schedule|
  {
    schedule == [] || (Enabled(s, schedule[0]) && Run(Do(s, schedule[0]), schedule[1..]))
  }

  function After(s: Threads, schedule: seq<nat>): Threads
    requires Run(s, schedule)
    decreases |schedule|
  {
    if schedule == [] then s else After(Do(s, schedule[0]), schedule[1..])
  }

  predicate Finished(s: Threads) {
    forall i :: 0 <= i < |s| ==> s[i].script == []
  }

  function StepsLeft(s: Threads): nat {
    if s == [] then 0 else StepsLeft(s[..|s| - 1]) + |s[|s| - 1].script|
  }

  /** Nobody has started. */
  function Fresh(scripts: seq<seq<Op>>): Threads {
    seq(|scripts|, i requires 0 <= i < |scripts| => Thread({}, scripts[i]))
  }

  // Steps keep threads sound

  lemma SoundStep(s: Threads, i: nat)
    requires Sound(s) && Enabled(s, i)
    ensures Sound(Do(s, i))
  {
    var t := Do(s, i);
    assert Ordered(s[i]);
    forall j, k | 0 <= j < k < |t|
      ensures t[j].held !! t[k].held
    {
      assert s[j].held !! s[k].held;
    }
    forall j | 0 <= j < |t|
      ensures Ordered(t[j])
    {
      assert Ordered(s[j]);
    }
  }

  lemma {:induction false} StepTaken(s: Threads, i: nat)
    requires Enabled(s, i)
    ensures StepsLeft(Do(s, i)) + 1 == StepsLeft(s)
    decreases |s|
  {
    var t := Do(s, i);
    if i == |s| - 1 {
      assert t[..|t| - 1] == s[..|s| - 1];
    } else {
      var init := s[..|s| - 1];
      StepTaken(init, i);
      assert t[..|t| - 1] == Do(init, i);
    }
  }

  lemma {:induction false} AlwaysSound(s: Threads, schedule: seq<nat>)
    requires Sound(s) && Run(s, schedule)
    ensures Sound(After(s, schedule))
    ensures |schedule| + StepsLeft(After(s, schedule)) == StepsLeft(s)
    decreases |schedule|
  {
    if schedule != [] {
      SoundStep(s, schedule[0]);
      StepTaken(s, schedule[0]);
      AlwaysSound(Do(s, schedule[0]), schedule[1..]);
    }
  }

  // Somebody can always go on

  /** Thread i waits for a lock thread j holds. */
  predicate Waits(s: Threads, i: nat, j: nat) {
    && i < |s| && j < |s| && s[i].script != [] && s[i].script[0].Take?
    && s[i].script[0].l in s[j].held
  }

  /** Whoever is waited for is not done, and if it waits itself then for a lock of higher rank. */
  lemma WaitsUpwards(s: Threads, i: nat, j: nat)
    requires Sound(s) && Waits(s, i, j)
    ensures s[j].script != []
    ensures s[j].script[0].Take? ==> Rank(s[i].script[0].l) < Rank(s[j].script[0].l)
  {
    assert Ordered(s[j]);
  }

  lemma {:induction false} SomebodyMoves(s: Threads, i: nat) returns (j: nat)
    requires Sound(s) && i < |s| && s[i].script != []
    ensures Enabled(s, j)
    decreases if s[i].script[0].Take? then TOP + 1 - Rank(s[i].script[0].l) else 0
  {
    if Enabled(s, i) {
      j := i;
    } else {
      var k :| 0 <= k < |s| && s[i].script[0].l in s[k].held;
      WaitsUpwards(s, i, k);
      j := SomebodyMoves(s, k);
    }
  }

  /** A ring of threads each waiting for the next. */
  predicate WaitCycle(s: Threads, ring: seq<nat>) {
    && ring != []
    && (forall i :: 0 <= i < |ring| - 1 ==> Waits(s, ring[i], ring[i + 1]))
    && Waits(s, ring[|ring| - 1], ring[0])
  }

  lemma {:induction false} RanksRise(s: Threads, ring: seq<nat>, k: nat)
    requires Sound(s) && WaitCycle(s, ring) && k < |ring|
    ensures Waits(s, ring[k], ring[if k == |ring| - 1 then 0 else k + 1])
    ensures Rank(s[ring[0]].script[0].l) + k <= Rank(s[ring[k]].script[0].l)
  {
    if k == 0 {
      assert |ring| > 1 ==> Waits(s, ring[0], ring[0 + 1]);
    } else {
      RanksRise(s, ring, k - 1);
      WaitsUpwards(s, ring[k - 1], ring[k]);
      assert k < |ring| - 1 ==> Waits(s, ring[k], ring[k + 1]);
    }
  }

  lemma NoWaitCycle(s: Threads, ring: seq<nat>)
    requires Sound(s)
    ensures !WaitCycle(s, ring)
  {
    if WaitCycle(s, ring) {
      RanksRise(s, ring, |ring| - 1);
      RanksRise(s, ring, 0);
      WaitsUpwards(s, ring[|ring| - 1], ring[0]);
    }
  }

  /** Any sound state can be run to the end. */
  lemma {:induction false} CanFinish(s: Threads) returns (schedule: seq<nat>)
    requires Sound(s)
    ensures Run(s, schedule) && Finished(After(s, schedule))
    decreases StepsLeft(s)
  {
    if Finished(s) {
      schedule := [];
    } else {
      var i :| 0 <= i < |s| && s[i].script != [];
      var j := SomebodyMoves(s, i);
      SoundStep(s, j);
      StepTaken(s, j);
      var rest := CanFinish(Do(s, j));
      schedule := [j] + rest;
      assert schedule[1..] == rest;
    }
  }

  /**
   Deadlock freedom: however the threads are interleaved, no lock has two holders, no ring of
   threads waits on each other, a thread that is not done leaves somebody able to move, and a run
   is over after a fixed number of steps.
   */
  lemma NeverStuck(scripts: seq<seq<Op>>, schedule: seq<nat>)
    requires forall i :: 0 <= i < |scripts| ==> Keeps({}, scripts[i])
    requires Run(Fresh(scripts), schedule)
    ensures var s := After(Fresh(scripts), schedule);
            && Exclusive(s)
            && (forall ring :: !WaitCycle(s, ring))
            && (Finished(s) <==> forall i :: !Enabled(s, i))
            && |schedule| + StepsLeft(s) == StepsLeft(Fresh(scripts))
  {
    var s := After(Fresh(scripts), schedule);
    FreshIsSound(scripts);
    AlwaysSound(Fresh(scripts), schedule);
    forall ring
      ensures !WaitCycle(s, ring)
    {
      NoWaitCycle(s, ring);
    }
    if !Finished(s) {
      var i :| 0 <= i < |s| && s[i].script != [];
      var j := SomebodyMoves(s, i);
    }
  }

  lemma FreshIsSound(scripts: seq<seq<Op>>)
    requires forall i :: 0 <= i < |scripts| ==> Keeps({}, scripts[i])
    ensures Sound(Fresh(scripts))
  {
    forall i | 0 <= i < |scripts|
      ensures Ordered(Fresh(scripts)[i])
    {
      assert Keeps({}, scripts[i]);
    }
  }

  /** The order matters: any two locks taken in opposite orders can hang. */
  lemma OppositeOrdersHang(a: Lock, b: Lock)
    requires a != b
    ensures var s := Fresh([[Take(a), Take(b), Drop(b), Drop(a)], [Take(b), Take(a), Drop(a), Drop(b)]]);
            Run(s, [0, 1]) && !Finished(After(s, [0, 1])) && WaitCycle(After(s, [0, 1]), [0, 1])
            && forall i :: !Enabled(After(s, [0, 1]), i)
  {
    var s := Fresh([[Take(a), Take(b), Drop(b), Drop(a)], [Take(b), Take(a), Drop(a), Drop(b)]]);
    var t := Do(s, 0);
    var u := Do(t, 1);
    assert t[0].held == {a} && t[1].held == {} && u[0].held == {a} && u[1].held == {b};
    assert [0, 1][1..] == [1];
    assert After(s, [0, 1]) == After(t, [1]) == u;
    assert u[0].script[0] == Take(b) && u[1].script[0] == Take(a);
  }

  // Putting scripts together

  lemma {:induction false} HoldingConcat(held: set<Lock>, first: seq<Op>, rest: seq<Op>)
    requires Holding(held, first).Some?
    ensures Holding(held, first + rest) == Holding(Holding(held, first).value, rest)
    decreases |first|
  {
    if first == [] {
      assert first + rest == rest;
    } else {
      assert (first + rest)[0] == first[0] && (first + rest)[1..] == first[1..] + rest;
      match first[0]
      case Take(l) => HoldingConcat(held + {l}, first[1..], rest);
      case Drop(l) => HoldingConcat(held - {l}, first[1..], rest);
    }
  }

  lemma KeepsConcat(held: set<Lock>, first: seq<Op>, rest: seq<Op>)
    requires Keeps(held, first) && Keeps(held, rest)
    ensures Keeps(held, first + rest)
  {
    HoldingConcat(held, first, rest);
  }

  /** A critical section. */
  function Under(l: Lock, inner: seq<Op>): seq<Op> {
    [Take(l)] + inner + [Drop(l)]
  }

  lemma UnderKeeps(held: set<Lock>, l: Lock, inner: seq<Op>)
    requires Above(held, l) && Keeps(held + {l}, inner)
    ensures Keeps(held, Under(l, inner))
  {
    HoldingConcat(held + {l}, inner, [Drop(l)]);
    assert l !in held;
    assert held + {l} - {l} == held;
    assert Under(l, inner)[1..] == inner + [Drop(l)];
    assert [Drop(l)][1..] == [];
  }
}
