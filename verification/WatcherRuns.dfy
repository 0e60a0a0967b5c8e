/**
 Every interleaving of one watcher thread, any number of local writers, the change notifier and
 other programs that use the clipboard (src/internal/clip/watch.go:96-161,
 src/internal/clip/notify_linux.go:73-83).

 `check` and `LocalWrite` are split at the clipboard access, inside the lock. The settle timer
 is a step that may happen at any time while settling.
 */
module WatcherRuns {
  import opened Prelude
  import opened Codec
  import opened Watching

  /** Who holds `w.mu`, and how far it got. */
  datatype Holder =
    | Free
    | CheckLocked
    | CheckRead(c: Content)
    | WriteLocked(c: Content)
    | WriteDone(c: Content)

  /** Where the watcher thread is. */
  datatype Thread = Waiting | Settling | Ready | Checking | Announcing(c: Content)

  datatype Event = Observed(c: Content) | Wrote(c: Content)

  datatype State = State(
    clip: Content,
    watch: Watch,
    holder: Holder,
    thread: Thread,
    pending: nat,          // notifications on their way to the one-slot channel
    slot: bool,            // the one-slot channel
    missed: bool,          // the latest attempt to read the clipboard failed
    trace: seq<Event>,     // commits, in lock order
    fired: seq<Content>    // calls of onChange
  )

  datatype Action =
    | External(c: Content)
    | Notify
    | Wake
    | Extend
    | TimerFires
    | Poll
    | LockCheck
    | Read(answers: bool)
    | CommitCheck
    | Announce
    | LockWrite(c: Content)
    | WriteClip(answers: bool)
    | CommitWrite

  predicate Enabled(s: State, a: Action) {
    match a
    case External(_) => true
    case Notify => s.pending > 0
    case Wake => s.thread.Waiting? && s.slot
    case Extend => s.thread.Settling? && s.slot
    case TimerFires => s.thread.Settling?
    case Poll => s.thread.Waiting?
    case LockCheck => s.thread.Ready? && s.holder.Free?
    case Read(_) => s.holder.CheckLocked?
    case CommitCheck => s.holder.CheckRead?
    case Announce => s.thread.Announcing?
    case LockWrite(_) => s.holder.Free?
    case WriteClip(_) => s.holder.WriteLocked?
    case CommitWrite => s.holder.WriteDone?
  }

  function Do(s: State, a: Action): State
    requires Enabled(s, a)
  {
    match a
    case External(c) => s.(clip := c, pending := s.pending + 1)
    case Notify => s.(pending := s.pending - 1, slot := true)
    case Wake => s.(slot := false, thread := Settling)
    case Extend => s.(slot := false)
    case TimerFires => s.(thread := Ready)
    case Poll => s.(thread := Ready)
    case LockCheck => s.(holder := CheckLocked, thread := Checking)
    case Read(answers) =>
      if answers then s.(holder := CheckRead(s.clip), missed := false)
      else s.(holder := Free, thread := Waiting, missed := true)
    case CommitCheck =>
      var c := s.holder.c;
      s.(holder := Free,
         watch := Observe(s.watch, KeyOf(c)),
         thread := if Fires(s.watch, KeyOf(c)) then Announcing(c) else Waiting,
         trace := s.trace + [Observed(c)])
    case Announce => s.(thread := Waiting, fired := s.fired + [s.thread.c])
    case LockWrite(c) => s.(holder := WriteLocked(c))
    case WriteClip(answers) =>
      if answers then s.(holder := WriteDone(s.holder.c), clip := s.holder.c, pending := s.pending + 1)
      else s.(holder := Free)
    case CommitWrite =>
      s.(holder := Free, watch := Write(KeyOf(s.holder.c)), trace := s.trace + [Wrote(s.holder.c)])
  }

  predicate Run(s: State, actions: seq<Action>)
    decreases |actions|
  {
    actions == [] || (Enabled(s, actions[0]) && Run(Do(s, actions[0]), actions[1..]))
  }

  function After(s: State, actions: seq<Action>): State
    requires Run(s, actions)
    decreases |actions|
  {
    if actions == [] then s else After(Do(s, actions[0]), actions[1..])
  }

  /** Right after a successful initial snapshot; the notifier is already running. */
  predicate Start(s: State) {
    && s.watch == Watch(KeyOf(s.clip), NO_KEY)
    && s.holder.Free? && s.thread.Waiting? && !s.missed
    && s.trace == [] && s.fired == []
  }

  // What is reported

  /** The key the clipboard was last known to have before event i. */
  function KnownBefore(initial: Key, trace: seq<Event>, i: nat): Key
    requires i <= |trace|
  {
    if i == 0 then initial else KeyOf(trace[i - 1].c)
  }

  /** The key last written locally before event i (initially none). */
  function WrittenBefore(trace: seq<Event>, i: nat): Key
    requires i <= |trace|
  {
    if i == 0 then NO_KEY
    else if trace[i - 1].Wrote? then KeyOf(trace[i - 1].c)
    else WrittenBefore(trace, i - 1)
  }

  /** An observation is worth reporting if it is neither a repeat nor our latest own write. */
  predicate Reported(initial: Key, trace: seq<Event>, i: nat)
    requires i < |trace|
  {
    && trace[i].Observed?
    && KeyOf(trace[i].c) != KnownBefore(initial, trace, i)
    && KeyOf(trace[i].c) != WrittenBefore(trace, i)
  }

  function Reports(initial: Key, trace: seq<Event>, n: nat): seq<Content>
    requires n <= |trace|
  {
    if n == 0 then []
    else Reports(initial, trace, n - 1) + if Reported(initial, trace, n - 1) then [trace[n - 1].c] else []
  }

  lemma {:induction false} ReportsOfPrefix(initial: Key, trace: seq<Event>, more: seq<Event>, n: nat)
    requires n <= |trace|
    ensures WrittenBefore(trace + more, n) == WrittenBefore(trace, n)
    ensures KnownBefore(initial, trace + more, n) == KnownBefore(initial, trace, n)
    ensures Reports(initial, trace + more, n) == Reports(initial, trace, n)
  {
    if n > 0 {
      ReportsOfPrefix(initial, trace, more, n - 1);
      assert (trace + more)[n - 1] == trace[n - 1];
    }
  }

  /** What the fold knows after the first n events, as the watcher's two hashes. */
  function WatchAfter(initial: Key, trace: seq<Event>, n: nat): Watch
    requires n <= |trace|
  {
    Watch(KnownBefore(initial, trace, n), WrittenBefore(trace, n))
  }

  lemma LastWatch(initial: Key, trace: seq<Event>, n: nat)
    requires n < |trace|
    ensures var key := KeyOf(trace[n].c);
            WatchAfter(initial, trace, n + 1) ==
            if trace[n].Wrote? then Write(key) else Observe(WatchAfter(initial, trace, n), key)
  {
  }

  lemma WatchGrows(initial: Key, trace: seq<Event>, e: Event)
    ensures WatchAfter(initial, trace + [e], |trace| + 1) ==
            if e.Wrote? then Write(KeyOf(e.c)) else Observe(WatchAfter(initial, trace, |trace|), KeyOf(e.c))
  {
    var more := trace + [e];
    assert more[|trace|] == e;
    LastWatch(initial, more, |trace|);
    ReportsOfPrefix(initial, trace, [e], |trace|);
  }

  /** An event is worth reporting exactly when it is a check that fires. */
  lemma ReportedIffFires(initial: Key, trace: seq<Event>, e: Event)
    ensures Reported(initial, trace + [e], |trace|)
       <==> e.Observed? && Fires(WatchAfter(initial, trace, |trace|), KeyOf(e.c))
  {
    ReportsOfPrefix(initial, trace, [e], |trace|);
    assert (trace + [e])[|trace|] == e;
  }

  lemma LastReports(initial: Key, trace: seq<Event>, n: nat)
    requires n < |trace|
    ensures Reports(initial, trace, n + 1)
         == Reports(initial, trace, n) + if Reported(initial, trace, n) then [trace[n].c] else []
  {
  }

  lemma ReportsGrow(initial: Key, trace: seq<Event>, e: Event)
    ensures Reports(initial, trace + [e], |trace| + 1) == Reports(initial, trace, |trace|)
            + if e.Observed? && Fires(WatchAfter(initial, trace, |trace|), KeyOf(e.c)) then [e.c] else []
  {
    var more := trace + [e];
    assert more[|trace|] == e;
    LastReports(initial, more, |trace|);
    ReportsOfPrefix(initial, trace, [e], |trace|);
    ReportedIffFires(initial, trace, e);
  }

  function FiredOrFiring(s: State): seq<Content> {
    s.fired + if s.thread.Announcing? then [s.thread.c] else []
  }

  /** The watcher thread is in a check exactly when it holds the lock for one. */
  predicate Locked(s: State) {
    s.thread.Checking? <==> s.holder.CheckLocked? || s.holder.CheckRead?
  }

  predicate Refines(initial: Key, s: State) {
    && FiredOrFiring(s) == Reports(initial, s.trace, |s.trace|)
    && s.watch == WatchAfter(initial, s.trace, |s.trace|)
    && Locked(s)
  }

  /** A commit that moves the watcher's hashes and reports as the fold does keeps step with it. */
  lemma CommitRefines(initial: Key, s: State, t: State, e: Event)
    requires Refines(initial, s) && Locked(t) && t.trace == s.trace + [e]
    requires t.watch == if e.Wrote? then Write(KeyOf(e.c)) else Observe(s.watch, KeyOf(e.c))
    requires FiredOrFiring(t) ==
             FiredOrFiring(s) + if e.Observed? && Fires(s.watch, KeyOf(e.c)) then [e.c] else []
    ensures Refines(initial, t)
  {
    WatchGrows(initial, s.trace, e);
    ReportsGrow(initial, s.trace, e);
  }

  /** A check's commit: it held the lock, so nothing was waiting to be announced. */
  lemma CheckRefines(initial: Key, s: State)
    requires Refines(initial, s) && s.holder.CheckRead?
    ensures Refines(initial, Do(s, CommitCheck))
  {
    var c, t := s.holder.c, Do(s, CommitCheck);
    assert FiredOrFiring(s) == s.fired;
    assert FiredOrFiring(t) == s.fired + if Fires(s.watch, KeyOf(c)) then [c] else [];
    CommitRefines(initial, s, t, Observed(c));
  }

  lemma WriteRefines(initial: Key, s: State)
    requires Refines(initial, s) && s.holder.WriteDone?
    ensures Refines(initial, Do(s, CommitWrite))
  {
    var t := Do(s, CommitWrite);
    assert FiredOrFiring(t) == FiredOrFiring(s) + [];
    CommitRefines(initial, s, t, Wrote(s.holder.c));
  }

  lemma RefinesStep(initial: Key, s: State, a: Action)
    requires Refines(initial, s) && Enabled(s, a)
    ensures Refines(initial, Do(s, a))
  {
    match a
    case CommitCheck => CheckRefines(initial, s);
    case CommitWrite => WriteRefines(initial, s);
    case _ =>
      var t := Do(s, a);
      assert t.trace == s.trace && t.watch == s.watch;
      assert FiredOrFiring(t) == FiredOrFiring(s);
  }

  /**
   Over every interleaving, `onChange` is called with exactly the observations that were neither a
   repeat nor the latest own write, in order; at most the last of them is still to be announced.
   */
  lemma {:induction false} TraceRefinement(initial: Key, s: State, actions: seq<Action>)
    requires Refines(initial, s) && Run(s, actions)
    ensures Refines(initial, After(s, actions))
    decreases |actions|
  {
    if actions != [] {
      RefinesStep(initial, s, actions[0]);
      TraceRefinement(initial, Do(s, actions[0]), actions[1..]);
    }
  }

  lemma TraceRefinementFromStart(s: State, actions: seq<Action>)
    requires Start(s) && Run(s, actions)
    ensures var t := After(s, actions);
            FiredOrFiring(t) == Reports(KeyOf(s.clip), t.trace, |t.trace|)
  {
    TraceRefinement(KeyOf(s.clip), s, actions);
  }

  // Own writes are never reported

  predicate OnlyOwnWrites(s: State) {
    && (!s.holder.WriteDone? ==> s.watch.last == KeyOf(s.clip))
    && (s.holder.WriteDone? ==> s.holder.c == s.clip)
    && (s.holder.CheckRead? ==> s.holder.c == s.clip)
    && !s.thread.Announcing? && s.fired == []
  }

  /** If the clipboard changes only through local writes, nothing is ever reported, however checks race with them. */
  lemma {:induction false} OwnWritesNeverReported(s: State, actions: seq<Action>)
    requires OnlyOwnWrites(s) && Run(s, actions)
    requires forall i :: 0 <= i < |actions| ==> !actions[i].External?
    ensures OnlyOwnWrites(After(s, actions))
    decreases |actions|
  {
    if actions != [] {
      assert !actions[0].External?;
      assert forall i :: 0 <= i < |actions| - 1 ==> actions[1..][i] == actions[i + 1];
      OwnWritesNeverReported(Do(s, actions[0]), actions[1..]);
    }
  }

  lemma OwnWritesFromStart(s: State, actions: seq<Action>)
    requires Start(s) && Run(s, actions)
    requires forall i :: 0 <= i < |actions| ==> !actions[i].External?
    ensures After(s, actions).fired == [] && !After(s, actions).thread.Announcing?
  {
    OwnWritesNeverReported(s, actions);
  }

  // No change is overlooked

  /** Somebody is still going to look at the clipboard as it is now. */
  predicate LookPending(s: State) {
    || s.pending > 0
    || s.slot
    || s.thread.Settling?
    || s.thread.Ready?
    || s.holder.CheckLocked?
    || (s.holder.CheckRead? && s.holder.c == s.clip)
    || (s.holder.WriteDone? && s.holder.c == s.clip)
  }

  predicate Wakeful(s: State) {
    && (KeyOf(s.clip) != s.watch.last ==> LookPending(s) || s.missed)
    && (s.holder.WriteDone? || s.holder.CheckRead? ==> LookPending(s))
    && Locked(s)
  }

  function LastReport(s: State): Option<Content> {
    if s.thread.Announcing? then Some(s.thread.c)
    else if s.fired == [] then None
    else Some(s.fired[|s.fired| - 1])
  }

  /** The key the watcher goes by is the initial one, its latest own write, or the latest report. */
  predicate Accounted(initial: Key, s: State) {
    && Locked(s)
    && (|| s.watch.last == initial
        || s.watch.last == s.watch.skip
        || (LastReport(s).Some? && KeyOf(LastReport(s).value) == s.watch.last))
  }

  lemma WakefulStep(s: State, a: Action)
    requires Wakeful(s) && Enabled(s, a)
    ensures Wakeful(Do(s, a))
  {
    match a
    case External(c) =>
    case Notify =>
    case Wake =>
    case Extend =>
    case TimerFires =>
    case Poll =>
    case LockCheck =>
    case Read(_) =>
    case CommitCheck =>
    case Announce =>
    case LockWrite(_) =>
    case WriteClip(_) =>
    case CommitWrite =>
  }

  lemma AccountedStep(initial: Key, s: State, a: Action)
    requires Accounted(initial, s) && Enabled(s, a)
    ensures Accounted(initial, Do(s, a))
  {
    var t := Do(s, a);
    match a
    case CommitCheck => CheckAccounted(initial, s);
    case CommitWrite => assert t.watch.last == t.watch.skip;
    case _ => assert t.watch == s.watch && LastReport(t) == LastReport(s);
  }

  lemma CheckAccounted(initial: Key, s: State)
    requires Accounted(initial, s) && s.holder.CheckRead?
    ensures Accounted(initial, Do(s, CommitCheck))
  {
    var c, t := s.holder.c, Do(s, CommitCheck);
    if Fires(s.watch, KeyOf(c)) {
      assert LastReport(t) == Some(c);
    } else {
      assert LastReport(t) == LastReport(s);
    }
  }

  predicate Quiescent(s: State) {
    s.pending == 0 && !s.slot && s.thread.Waiting? && s.holder.Free?
  }

  lemma {:induction false} AlwaysWakeful(initial: Key, s: State, actions: seq<Action>)
    requires Wakeful(s) && Accounted(initial, s) && Run(s, actions)
    ensures Wakeful(After(s, actions)) && Accounted(initial, After(s, actions))
    decreases |actions|
  {
    if actions != [] {
      WakefulStep(s, actions[0]);
      AccountedStep(initial, s, actions[0]);
      AlwaysWakeful(initial, Do(s, actions[0]), actions[1..]);
    }
  }

  /**
   No lost wakeup: when everything has come to rest, the watcher knows what is on the clipboard,
   unless its latest attempt to read failed. What is there was announced last, or was written by
   the daemon itself, or was there from the start.
   */
  lemma NoLostWakeup(s: State, actions: seq<Action>)
    requires Start(s) && Run(s, actions) && Quiescent(After(s, actions))
    ensures var t := After(s, actions);
            !t.missed ==>
              && t.watch.last == KeyOf(t.clip)
              && (|| KeyOf(t.clip) == KeyOf(s.clip)
                  || KeyOf(t.clip) == t.watch.skip
                  || (t.fired != [] && KeyOf(t.clip) == KeyOf(t.fired[|t.fired| - 1])))
  {
    AlwaysWakeful(KeyOf(s.clip), s, actions);
  }

  lemma RunFirst(s: State, a: Action, rest: seq<Action>)
    requires Enabled(s, a) && Run(Do(s, a), rest)
    ensures Run(s, [a] + rest) && After(s, [a] + rest) == After(Do(s, a), rest)
  {
    assert ([a] + rest)[1..] == rest;
  }

  lemma FailedLook(s: State) returns (actions: seq<Action>)
    requires s.thread.Waiting? && s.holder.Free? && s.slot
    ensures Run(s, actions) && After(s, actions) == s.(slot := false, missed := true)
  {
    var s1 := Do(s, Wake);
    var s2 := Do(s1, TimerFires);
    var s3 := Do(s2, LockCheck);
    RunFirst(s3, Read(false), []);
    actions := [Read(false)] + [];
    RunFirst(s2, LockCheck, actions);
    actions := [LockCheck] + actions;
    RunFirst(s1, TimerFires, actions);
    actions := [TimerFires] + actions;
    RunFirst(s, Wake, actions);
    actions := [Wake] + actions;
  }

  /** However many notifications are on their way, one full slot and one failed read use them up. */
  lemma {:induction false} NotifiedInVain(s: State) returns (actions: seq<Action>)
    requires s.thread.Waiting? && s.holder.Free? && (s.pending > 0 || s.slot)
    ensures Run(s, actions) && After(s, actions) == s.(pending := 0, slot := false, missed := true)
    decreases s.pending
  {
    if s.pending == 0 {
      actions := FailedLook(s);
    } else {
      var rest := NotifiedInVain(Do(s, Notify));
      RunFirst(s, Notify, rest);
      actions := [Notify] + rest;
    }
  }

  /** The exception is real: a read that fails swallows every notification that led to it. */
  lemma FailedReadLosesWakeup(s: State, c: Content) returns (actions: seq<Action>)
    requires Start(s) && KeyOf(c) != KeyOf(s.clip)
    ensures Run(s, actions)
    ensures var t := After(s, actions);
            Quiescent(t) && t.clip == c && t.fired == [] && t.watch.last != KeyOf(t.clip)
  {
    var rest := NotifiedInVain(Do(s, External(c)));
    RunFirst(s, External(c), rest);
    actions := [External(c)] + rest;
  }

  predicate Reliable(actions: seq<Action>) {
    forall i :: 0 <= i < |actions| ==> actions[i] != Read(false)
  }

  lemma {:induction false} ReliableReadsMissNothing(s: State, actions: seq<Action>)
    requires Run(s, actions) && Reliable(actions) && !s.missed
    ensures !After(s, actions).missed
    decreases |actions|
  {
    if actions != [] {
      assert actions[0] != Read(false);
      assert forall i :: 0 <= i < |actions| - 1 ==> actions[1..][i] == actions[i + 1];
      ReliableReadsMissNothing(Do(s, actions[0]), actions[1..]);
    }
  }

  /** Every run that comes to rest leaves the watcher knowing the clipboard. */
  ghost predicate KnowsAtRest(s: State, failures: bool) {
    forall actions :: Run(s, actions) && (failures || Reliable(actions)) && Quiescent(After(s, actions)) ==>
      After(s, actions).watch.last == KeyOf(After(s, actions).clip)
  }

  /** That is so exactly when reads never fail. */
  lemma KnowsAtRestIff(s: State, failures: bool)
    requires Start(s)
    ensures KnowsAtRest(s, failures) <==> !failures
  {
    if failures {
      var a, b := SomeRivals();
      var actions := FailedReadLosesWakeup(s, if KeyOf(a) != KeyOf(s.clip) then a else b);
      assert Quiescent(After(s, actions));
    } else {
      forall actions | Run(s, actions) && Reliable(actions) && Quiescent(After(s, actions))
        ensures After(s, actions).watch.last == KeyOf(After(s, actions).clip)
      {
        ReliableReadsMissNothing(s, actions);
        NoLostWakeup(s, actions);
      }
    }
  }
}
