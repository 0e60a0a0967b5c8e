/**
 The two transient set-ups, which lean on a cap of one client: `clipshare watch` closes a channel
 with a check-then-act, and the one-shot sender delivers once
 (src/internal/cli/commands/watch/watch.go:54-105, src/internal/cli/commands/send/send.go:81-93).
 */
module HandlersModes {
  import opened Codec
  import opened Gates
  import opened ServerSpec
  import opened Handlers
  import Ids

  /** With a cap of one, at most one connection is between registration and deregistration. */
  lemma SoleConnection(s: State, u: Setup, m: nat, n: nat)
    requires Sound(s, u) && u.maxClients == 1 && Live(s.conns, m) && Live(s.conns, n)
    ensures m == n
  {
    var a, b := s.conns[m].id, s.conns[n].id;
    SmallerSet({a, b}, s.owner.Keys);
    assert |s.owner.Keys| == |s.owner|;
    assert a != b ==> |{a, b}| == 2;
  }

  lemma OthersNotLive(s: State, n: nat, u: Setup)
    requires u.maxClients == 1 && Sound(s, u) && Live(s.conns, n)
    ensures forall m :: m in s.conns && InTable(s.conns[m].phase) ==> m == n
  {
    forall m | m in s.conns && InTable(s.conns[m].phase)
      ensures m == n
    {
      SoleConnection(s, u, m, n);
    }
  }

  lemma SmallerSet<T>(a: set<T>, b: set<T>)
    requires a <= b
    ensures |a| <= |b|
  {
    assert b == a + (b - a);
  }

  // clipshare watch

  /** `received` is closed at most once, and whoever is about to close it found it open for good reason. */
  predicate CloseSafe(s: State) {
    && s.received <= 1
    && forall n :: n in s.conns && s.conns[n].phase.Checked? ==> s.received == 0
  }

  lemma ClosingEffect(s: State, n: nat, u: Setup)
    requires Enabled(s, Handle(n, CloseReceived), u)
    ensures var t, p := Do(s, Handle(n, CloseReceived), u), s.conns[n].phase;
            && t.conns == s.conns[n := s.conns[n].(phase := Relaying(p.c, p.from, p.k))]
            && t.received == s.received + 1
  {
  }

  /** The close itself: the closer is alone in the table, so nobody else is about to close. */
  lemma ClosingIsSafe(s: State, n: nat, u: Setup)
    requires u.maxClients == 1 && Sound(s, u) && CloseSafe(s) && Enabled(s, Handle(n, CloseReceived), u)
    ensures CloseSafe(Do(s, Handle(n, CloseReceived), u))
  {
    ClosingEffect(s, n, u);
    OthersNotLive(s, n, u);
  }

  lemma CloseSafeStep(s: State, a: Action, u: Setup)
    requires u.maxClients == 1 && Sound(s, u) && CloseSafe(s) && Enabled(s, a, u)
    ensures CloseSafe(Do(s, a, u))
  {
    if a.Handle? && a.step.CloseReceived? {
      ClosingIsSafe(s, a.n, u);
    } else {
      ReceivedUnchanged(s, a, u);
    }
  }

  lemma ReceivedUnchanged(s: State, a: Action, u: Setup)
    requires Enabled(s, a, u) && !(a.Handle? && a.step.CloseReceived?)
    ensures var t := Do(s, a, u);
            t.received == s.received
            && forall n :: n in t.conns && t.conns[n].phase.Checked? ==>
                 s.received == 0 || (n in s.conns && s.conns[n].phase.Checked?)
  {
    if a.Handle? {
      EffectOnReceived(s, a.n, a.step, u);
      CheckedFoundOpen(s, a.n, a.step, u);
    }
  }

  lemma EffectOnReceived(s: State, n: nat, step: Step, u: Setup)
    requires Enabled(s, Handle(n, step), u) && !step.CloseReceived?
    ensures Effect(s, n, step, u).received == s.received
  {
    match step
    case Register =>
    case Hello(_) =>
    case Hook =>
    case HookBroadcast(_, _) =>
    case HookClose =>
    case Receive(_, _, _) =>
    case ConsultGate(_) =>
    case Callback(_) =>
    case CloseReceived =>
    case Relay(_) =>
    case Disconnect =>
  }

  lemma CheckedFoundOpen(s: State, n: nat, step: Step, u: Setup)
    requires Enabled(s, Handle(n, step), u)
    ensures Next(s, n, step, u).Checked? ==> s.received == 0
  {
  }

  lemma {:induction false} AlwaysCloseSafe(s: State, actions: seq<Action>, u: Setup)
    requires u.maxClients == 1 && Sound(s, u) && CloseSafe(s) && Run(s, actions, u)
    ensures CloseSafe(After(s, actions, u))
    decreases |actions|
  {
    if actions != [] {
      CloseSafeStep(s, actions[0], u);
      SoundStep(s, actions[0], u);
      AlwaysCloseSafe(Do(s, actions[0], u), actions[1..], u);
    }
  }

  // Without the cap

  lemma RunTwo(s: State, a: Action, b: Action, u: Setup) returns (actions: seq<Action>)
    requires Enabled(s, a, u) && Enabled(Do(s, a, u), b, u)
    ensures Run(s, actions, u) && After(s, actions, u) == Do(Do(s, a, u), b, u)
  {
    RunFirst(Do(s, a, u), b, [], u);
    RunFirst(s, a, [b] + [], u);
    actions := [a] + ([b] + []);
  }

  lemma {:induction false} RunConcat(s: State, first: seq<Action>, rest: seq<Action>, u: Setup)
    requires Run(s, first, u) && Run(After(s, first, u), rest, u)
    ensures Run(s, first + rest, u) && After(s, first + rest, u) == After(After(s, first, u), rest, u)
    decreases |first|
  {
    if first == [] {
      assert first + rest == rest;
    } else {
      RunConcat(Do(s, first[0], u), first[1..], rest, u);
      RunFirst(s, first[0], first[1..] + rest, u);
      assert first + rest == [first[0]] + (first[1..] + rest);
    }
  }

  /** A connection that gets into the table. */
  lemma Join(s: State, u: Setup) returns (actions: seq<Action>)
    requires s.seqNo + 1 < Ids.WRAP && !(0 < u.maxClients <= |s.clients|)
    ensures Run(s, actions, u)
    ensures var t, n := After(s, actions, u), s.seqNo + 1;
            && t.conns == s.conns[n := Conn(Ids.Format(n), Greeting)] && t.seqNo == n
            && t.clients == s.clients[Ids.Format(n) := ClientView(NO_NOTE, [])]
            && t.received == s.received && t.gate == s.gate
  {
    var n := s.seqNo + 1;
    var s1 := Do(s, Connect, u);
    var s2 := Do(s1, Handle(n, Register), u);
    assert s2.conns == s.conns[n := Conn(Ids.Format(n), Greeting)];
    actions := RunTwo(s, Connect, Handle(n, Register), u);
  }

  lemma SayHello(s: State, n: nat, u: Setup) returns (actions: seq<Action>)
    requires !u.mode.OneShot? && n in s.conns && s.conns[n].phase.Greeting?
    ensures Run(s, actions, u)
    ensures var t := After(s, actions, u);
            && t.conns == s.conns[n := s.conns[n].(phase := Serving)] && t.seqNo == s.seqNo
            && t.clients == s.clients && t.received == s.received && t.gate == s.gate
  {
    var s1 := Do(s, Handle(n, Hello(true)), u);
    var s2 := Do(s1, Handle(n, Hook), u);
    assert s2.conns == s.conns[n := s.conns[n].(phase := Serving)];
    actions := RunTwo(s, Handle(n, Hello(true)), Handle(n, Hook), u);
  }

  /** From s to t the next connection has got into the table and greeted. */
  predicate Greeted(s: State, t: State) {
    var n := s.seqNo + 1;
    && n in t.conns && t.conns[n].phase.Serving?
    && (forall m :: m in s.conns && m != n ==> m in t.conns && t.conns[m] == s.conns[m])
    && t.seqNo == n && t.received == s.received && t.gate == s.gate
    && |t.clients| <= |s.clients| + 1
  }

  lemma Greet(s: State, u: Setup) returns (actions: seq<Action>, t: State)
    requires !u.mode.OneShot? && s.seqNo + 1 < Ids.WRAP && !(0 < u.maxClients <= |s.clients|)
    ensures Run(s, actions, u) && After(s, actions, u) == t && Greeted(s, t)
  {
    var first := Join(s, u);
    var mid := After(s, first, u);
    assert |mid.clients| <= |s.clients| + 1;
    var rest := SayHello(mid, s.seqNo + 1, u);
    RunConcat(s, first, rest, u);
    actions, t := first + rest, After(mid, rest, u);
  }

  lemma ReceiveStep(s: State, n: nat, c: Content, now: int, u: Setup)
    requires Stable(c) && n in s.conns && s.conns[n].phase.Serving?
    ensures Enabled(s, Handle(n, Receive(c, "", now)), u)
    ensures var t := Do(s, Handle(n, Receive(c, "", now)), u);
            && t.conns == s.conns[n := s.conns[n].(phase := Noted(c, ""))]
            && t.received == s.received && t.gate == s.gate && t.accepts == s.accepts
  {
  }

  lemma ConsultStep(s: State, n: nat, now: int, u: Setup)
    requires n in s.conns && s.conns[n].phase.Noted?
    requires !IsEcho(s.gate, KeyOf(s.conns[n].phase.c), now, u.cfg.window)
    ensures Enabled(s, Handle(n, ConsultGate(now)), u)
    ensures var t, p := Do(s, Handle(n, ConsultGate(now)), u), s.conns[n].phase;
            && t.conns == s.conns[n := s.conns[n].(phase := Accepted(p.c, p.from, |s.accepts|))]
            && t.received == s.received && t.gate == Gate(KeyOf(p.c), At(now))
  {
  }

  /** A push that gets past the gate. */
  lemma Push(s: State, n: nat, c: Content, now: int, u: Setup) returns (actions: seq<Action>)
    requires Stable(c) && n in s.conns && s.conns[n].phase.Serving?
    requires !IsEcho(s.gate, KeyOf(c), now, u.cfg.window)
    ensures Run(s, actions, u)
    ensures var t := After(s, actions, u);
            && t.conns == s.conns[n := s.conns[n].(phase := Accepted(c, "", |s.accepts|))]
            && t.received == s.received && t.gate == Gate(KeyOf(c), At(now))
  {
    ReceiveStep(s, n, c, now, u);
    ConsultStep(Do(s, Handle(n, Receive(c, "", now)), u), n, now, u);
    actions := RunTwo(s, Handle(n, Receive(c, "", now)), Handle(n, ConsultGate(now)), u);
  }

  /** Its clip gets as far as finding `received` open. */
  lemma PushAndCheck(s: State, n: nat, c: Content, now: int, u: Setup) returns (actions: seq<Action>)
    requires u.mode.WatchOnce? && Stable(c) && s.received == 0
    requires n in s.conns && s.conns[n].phase.Serving?
    requires !IsEcho(s.gate, KeyOf(c), now, u.cfg.window)
    ensures Run(s, actions, u)
    ensures var t := After(s, actions, u);
            && t.conns == s.conns[n := s.conns[n].(phase := Checked(c, "", |s.accepts|))]
            && t.received == 0 && t.gate == Gate(KeyOf(c), At(now))
  {
    actions := Push(s, n, c, now, u);
    var t := After(s, actions, u);
    RunFirst(t, Handle(n, Callback(true)), [], u);
    assert Do(t, Handle(n, Callback(true)), u).conns == s.conns[n := s.conns[n].(phase := Checked(c, "", |s.accepts|))];
    RunConcat(s, actions, [Handle(n, Callback(true))] + [], u);
    actions := actions + ([Handle(n, Callback(true))] + []);
  }

  lemma CloseBoth(s: State, m: nat, n: nat, u: Setup) returns (actions: seq<Action>)
    requires m != n && m in s.conns && n in s.conns && s.conns[m].phase.Checked? && s.conns[n].phase.Checked?
    ensures Run(s, actions, u) && After(s, actions, u).received == s.received + 2
  {
    actions := RunTwo(s, Handle(m, CloseReceived), Handle(n, CloseReceived), u);
  }

  /** Two clients are being served, `received` is open as before and the gate untouched. */
  predicate TwoServed(s: State, t: State) {
    var m, n := s.seqNo + 1, s.seqNo + 2;
    && m in t.conns && n in t.conns && t.conns[m].phase.Serving? && t.conns[n].phase.Serving?
    && t.received == s.received && t.gate == s.gate
  }

  lemma GreetedTwice(s: State, mid: State, t: State)
    requires Greeted(s, mid) && Greeted(mid, t)
    ensures TwoServed(s, t)
  {
  }

  lemma RoomForTwo(s: State, mid: State, u: Setup)
    requires u.maxClients != 1 && |s.clients| == 0 && Greeted(s, mid)
    ensures !(0 < u.maxClients <= |mid.clients|) && mid.seqNo == s.seqNo + 1
  {
  }

  lemma TwoClients(s: State, u: Setup) returns (actions: seq<Action>, t: State)
    requires !u.mode.OneShot? && u.maxClients != 1 && s.seqNo + 2 < Ids.WRAP && |s.clients| == 0
    ensures Run(s, actions, u) && After(s, actions, u) == t && TwoServed(s, t)
  {
    var first, mid := Greet(s, u);
    RoomForTwo(s, mid, u);
    var rest, last := Greet(mid, u);
    GreetedTwice(s, mid, last);
    RunConcat(s, first, rest, u);
    actions, t := first + rest, last;
  }

  /** Clips with different keys from both, and both find `received` open before either closes it. */
  lemma BothClose(s: State, m: nat, n: nat, c: Content, d: Content, now: int, u: Setup) returns (actions: seq<Action>)
    requires u.mode.WatchOnce? && Rivals(c, d) && s.received == 0 && m != n
    requires m in s.conns && n in s.conns && s.conns[m].phase.Serving? && s.conns[n].phase.Serving?
    requires !IsEcho(s.gate, KeyOf(c), now, u.cfg.window)
    ensures Run(s, actions, u) && After(s, actions, u).received == 2
  {
    var a1 := PushAndCheck(s, m, c, now, u);
    var s1 := After(s, a1, u);
    var a2 := PushAndCheck(s1, n, d, now, u);
    var s2 := After(s1, a2, u);
    var a3 := CloseBoth(s2, m, n, u);
    RunConcat(s1, a2, a3, u);
    RunConcat(s, a1, a2 + a3, u);
    actions := a1 + (a2 + a3);
  }

  lemma OtherCapsCloseFrom(s: State, u: Setup) returns (actions: seq<Action>)
    requires u.mode.WatchOnce? && u.maxClients != 1 && s.seqNo + 2 < Ids.WRAP && |s.clients| == 0
    requires s.received == 0 && s.gate == CLOSED
    ensures Run(s, actions, u) && After(s, actions, u).received == 2
  {
    var c, d := SomeRivals();
    var first, mid := TwoClients(s, u);
    var rest := BothClose(mid, s.seqNo + 1, s.seqNo + 2, c, d, 0, u);
    RunConcat(s, first, rest, u);
    actions := first + rest;
  }

  /** With any other cap two clients can both find `received` open, and the second close panics. */
  lemma OtherCapsCloseTwice(u: Setup) returns (actions: seq<Action>)
    requires u.mode.WatchOnce? && u.maxClients != 1
    ensures Run(INITIAL, actions, u) && After(INITIAL, actions, u).received == 2
  {
    actions := OtherCapsCloseFrom(INITIAL, u);
  }

  /** The two-step close is safe exactly when the cap is one. */
  lemma CloseOnceSafeIff(u: Setup)
    requires u.mode.WatchOnce?
    ensures (forall actions :: Run(INITIAL, actions, u) ==> After(INITIAL, actions, u).received <= 1)
       <==> u.maxClients == 1
  {
    if u.maxClients == 1 {
      forall actions | Run(INITIAL, actions, u)
        ensures After(INITIAL, actions, u).received <= 1
      {
        AlwaysCloseSafe(INITIAL, actions, u);
      }
    } else {
      var actions := OtherCapsCloseTwice(u);
      assert Run(INITIAL, actions, u);
    }
  }

  // The one-shot sender

  predicate Early(p: Phase) {
    p.Dialled? || p.Greeting? || p.Gone?
  }

  /** How far the hand-over has got. */
  predicate Progress(conns: Conns, once: Once, log: seq<Entry>, delivered: nat, greeted: seq<nat>) {
    match once
    case Fresh =>
      && log == [] && delivered == 0
      && (forall n :: n in conns ==> Early(conns[n].phase) || (conns[n].phase.Greeted? && greeted == [n]))
      && (greeted != [] ==> |greeted| == 1 && greeted[0] in conns && conns[greeted[0]].phase.Greeted?)
    case Running(n) =>
      && delivered == 0 && greeted == [n] && n in conns
      && (forall m :: m in conns && m != n ==> !InTable(conns[m].phase))
      && ((conns[n].phase.InHook? && log == [])
          || (conns[n].phase.HookSent? && |log| == 1 && log[0].to == {n}))
    case Done =>
      && delivered == 1 && greeted != []
      && log != [] && log[0].to == {greeted[0]}
      && (forall p :: 0 < p < |log| ==> log[p].to == {})
      && (forall n :: n in conns ==> !conns[n].phase.InHook? && !conns[n].phase.HookSent?)
  }

  predicate OneShotProgress(s: State) {
    Progress(s.conns, s.once, s.log, s.delivered, s.greeted)
  }

  /** A client that has not got past the hook has sent no clip. */
  predicate Unnoted(conns: Conns, clients: map<string, ClientView>) {
    forall n :: n in conns && (conns[n].phase.Greeting? || conns[n].phase.Greeted? || conns[n].phase.InHook?) ==>
      conns[n].id in clients && clients[conns[n].id].note == NO_NOTE
  }

  predicate OneShotInvariant(s: State) {
    s.peers == map[] && OneShotProgress(s) && Unnoted(s.conns, s.clients)
  }

  lemma HookReachesTheGreeter(s: State, n: nat, now: int, u: Setup)
    requires u.mode.OneShot? && u.maxClients == 1 && Sound(s, u) && Unnoted(s.conns, s.clients)
    requires n in s.conns && s.conns[n].phase.InHook?
    ensures Recipients(s, Echoers(s.clients, KeyOf(u.mode.content), now, u.cfg)) == {n}
  {
    OthersNotLive(s, n, u);
    assert s.conns[n].id !in Echoers(s.clients, KeyOf(u.mode.content), now, u.cfg);
  }

  lemma RelayReachesNobody(s: State, n: nat, u: Setup)
    requires u.maxClients == 1 && Sound(s, u) && Live(s.conns, n)
    ensures Recipients(s, Origin(s.conns[n].id)) == {}
  {
    Ids.RoundTrip(n);
    OthersNotLive(s, n, u);
  }

  /** Steps that touch neither the hook nor the log. */
  predicate Quiet(step: Step) {
    step.Register? || step.Receive? || step.ConsultGate? || step.Callback? || step.CloseReceived? || step.Disconnect?
  }

  lemma QuietEffect(s: State, n: nat, step: Step, u: Setup)
    requires Enabled(s, Handle(n, step), u) && Quiet(step)
    ensures var t := Effect(s, n, step, u);
            && t.once == s.once && t.log == s.log && t.delivered == s.delivered && t.greeted == s.greeted
            && t.peers == s.peers
  {
    match step
    case Register =>
    case Receive(_, _, _) =>
    case ConsultGate(_) =>
    case Callback(_) =>
    case CloseReceived =>
    case Disconnect =>
  }

  lemma QuietNext(s: State, n: nat, step: Step, u: Setup)
    requires Enabled(s, Handle(n, step), u) && Quiet(step)
    ensures var q := Next(s, n, step, u);
            && !q.InHook? && !q.HookSent? && !q.Greeted?
            && (step.Register? || step.Disconnect? ==> Early(q))
            && (step.Register? || !s.conns[n].phase.Greeted?)
  {
  }

  lemma QuietMove(conns: Conns, once: Once, log: seq<Entry>, delivered: nat, greeted: seq<nat>, n: nat, p: Phase)
    requires Progress(conns, once, log, delivered, greeted) && n in conns
    requires !p.InHook? && !p.HookSent? && !p.Greeted?
    requires !once.Done? ==> Early(conns[n].phase) && Early(p) && (once.Running? ==> !InTable(p))
    ensures Progress(conns[n := conns[n].(phase := p)], once, log, delivered, greeted)
  {
  }

  /** While the hook runs the one client in the table keeps everyone else out. */
  lemma FullHouse(s: State, n: nat, u: Setup)
    requires u.maxClients == 1 && Sound(s, u) && Live(s.conns, n)
    ensures |s.clients| >= 1
  {
    assert s.conns[n].id in s.clients;
  }

  lemma QuietProgress(s: State, n: nat, step: Step, u: Setup)
    requires u.mode.OneShot? && u.maxClients == 1 && Sound(s, u) && OneShotInvariant(s)
    requires Enabled(s, Handle(n, step), u) && Quiet(step)
    ensures OneShotProgress(Do(s, Handle(n, step), u))
  {
    QuietEffect(s, n, step, u);
    QuietNext(s, n, step, u);
    if s.once.Running? {
      FullHouse(s, s.once.n, u);
    }
    QuietMove(s.conns, s.once, s.log, s.delivered, s.greeted, n, Next(s, n, step, u));
  }

  lemma RelayEffect(s: State, n: nat, ts: int, u: Setup)
    requires Enabled(s, Handle(n, Relay(ts)), u) && Recipients(s, Origin(s.conns[n].id)) == {}
    ensures var t := Effect(s, n, Relay(ts), u);
            && t.once == s.once && t.delivered == s.delivered && t.greeted == s.greeted
            && (t.log == s.log || exists e: Entry :: e.to == {} && t.log == s.log + [e])
  {
  }

  lemma LateEntry(conns: Conns, log: seq<Entry>, e: Entry, delivered: nat, greeted: seq<nat>)
    requires Progress(conns, Done, log, delivered, greeted) && e.to == {}
    ensures Progress(conns, Done, log + [e], delivered, greeted)
  {
  }

  lemma RelayProgress(s: State, n: nat, ts: int, u: Setup)
    requires u.mode.OneShot? && u.maxClients == 1 && Sound(s, u) && OneShotInvariant(s)
    requires Enabled(s, Handle(n, Relay(ts)), u)
    ensures OneShotProgress(Do(s, Handle(n, Relay(ts)), u))
  {
    RelayReachesNobody(s, n, u);
    RelayEffect(s, n, ts, u);
    var t := Effect(s, n, Relay(ts), u);
    assert s.once.Done?;
    if t.log != s.log {
      var e: Entry :| e.to == {} && t.log == s.log + [e];
      LateEntry(s.conns, s.log, e, s.delivered, s.greeted);
    }
    QuietMove(s.conns, s.once, t.log, s.delivered, s.greeted, n, Serving);
  }

  lemma HelloProgress(s: State, n: nat, good: bool, u: Setup)
    requires u.mode.OneShot? && u.maxClients == 1 && Sound(s, u) && OneShotInvariant(s)
    requires Enabled(s, Handle(n, Hello(good)), u)
    ensures OneShotProgress(Do(s, Handle(n, Hello(good)), u))
  {
    OthersNotLive(s, n, u);
  }

  lemma HookProgress(s: State, n: nat, u: Setup)
    requires u.mode.OneShot? && u.maxClients == 1 && Sound(s, u) && OneShotInvariant(s)
    requires Enabled(s, Handle(n, Hook), u)
    ensures OneShotProgress(Do(s, Handle(n, Hook), u))
  {
    OthersNotLive(s, n, u);
  }

  /** The one client in the table is through the hook. */
  lemma HookDone(conns: Conns, log: seq<Entry>, greeted: seq<nat>, n: nat)
    requires Progress(conns, Running(n), log, 0, greeted) && n in conns && conns[n].phase.HookSent?
    requires forall m :: m in conns && InTable(conns[m].phase) ==> m == n
    ensures Progress(conns[n := conns[n].(phase := Serving)], Done, log, 1, greeted)
  {
  }

  lemma HookCloseProgress(s: State, n: nat, u: Setup)
    requires u.mode.OneShot? && u.maxClients == 1 && Sound(s, u) && OneShotInvariant(s)
    requires Enabled(s, Handle(n, HookClose), u)
    ensures OneShotProgress(Do(s, Handle(n, HookClose), u))
  {
    OthersNotLive(s, n, u);
    assert s.once == Running(n) && s.delivered == 0;
    HookDone(s.conns, s.log, s.greeted, n);
  }

  lemma HookBroadcastProgress(s: State, n: nat, now: int, ts: int, u: Setup)
    requires u.mode.OneShot? && u.maxClients == 1 && Sound(s, u) && OneShotInvariant(s)
    requires Enabled(s, Handle(n, HookBroadcast(now, ts)), u)
    ensures OneShotProgress(Do(s, Handle(n, HookBroadcast(now, ts)), u))
  {
    HookReachesTheGreeter(s, n, now, u);
  }

  lemma ProgressStep(s: State, n: nat, step: Step, u: Setup)
    requires u.mode.OneShot? && u.maxClients == 1 && Sound(s, u) && OneShotInvariant(s)
    requires Enabled(s, Handle(n, step), u)
    ensures OneShotProgress(Do(s, Handle(n, step), u))
  {
    match step
    case Hello(good) => HelloProgress(s, n, good, u);
    case Hook => HookProgress(s, n, u);
    case HookClose => HookCloseProgress(s, n, u);
    case HookBroadcast(now, ts) => HookBroadcastProgress(s, n, now, ts, u);
    case Relay(ts) => RelayProgress(s, n, ts, u);
    case _ => QuietProgress(s, n, step, u);
  }

  lemma UnnotedJoin(s: State, n: nat, u: Setup)
    requires Sound(s, u) && Unnoted(s.conns, s.clients) && Enabled(s, Handle(n, Register), u)
    ensures var t := Do(s, Handle(n, Register), u);
            Unnoted(t.conns, t.clients)
  {
    NewIdIsFree(s.conns, s.owner, s.seqNo, n);
  }

  lemma BeforeTheHook(s: State, n: nat, step: Step, u: Setup)
    requires Enabled(s, Handle(n, step), u) && !step.Register?
    ensures var q := Next(s, n, step, u);
            && !q.Greeting?
            && (q.Greeted? ==> s.conns[n].phase.Greeting? && Effect(s, n, step, u).clients == s.clients)
            && (q.InHook? ==> s.conns[n].phase.Greeted? && Effect(s, n, step, u).clients == s.clients)
  {
    match step
    case Register =>
    case Hello(_) =>
    case Hook =>
    case HookBroadcast(_, _) =>
    case HookClose =>
    case Receive(_, _, _) =>
    case ConsultGate(_) =>
    case Callback(_) =>
    case CloseReceived =>
    case Relay(_) =>
    case Disconnect =>
  }

  lemma PeersStayAway(s: State, n: nat, step: Step, u: Setup)
    requires s.peers == map[] && Enabled(s, Handle(n, step), u)
    ensures Effect(s, n, step, u).peers == map[]
  {
    match step
    case Register =>
    case Hello(_) =>
    case Hook =>
    case HookBroadcast(_, _) =>
    case HookClose =>
    case Receive(_, _, _) =>
    case ConsultGate(_) =>
    case Callback(_) =>
    case CloseReceived =>
    case Relay(_) =>
    case Disconnect =>
  }

  /** Handler n moves on past greeting; nobody else is in the table. */
  lemma UnnotedMove(conns: Conns, before: map<string, ClientView>, after: map<string, ClientView>, n: nat, q: Phase)
    requires Unnoted(conns, before) && n in conns && !q.Greeting?
    requires q.Greeted? ==> conns[n].phase.Greeting? && after == before
    requires q.InHook? ==> conns[n].phase.Greeted? && after == before
    requires forall m :: m in conns && InTable(conns[m].phase) ==> m == n
    ensures Unnoted(conns[n := conns[n].(phase := q)], after)
  {
  }

  /** Only the one live client's entry changes, and it loses its blank note only past the hook. */
  lemma UnnotedStep(s: State, n: nat, step: Step, u: Setup)
    requires u.mode.OneShot? && u.maxClients == 1 && Sound(s, u) && OneShotInvariant(s)
    requires Enabled(s, Handle(n, step), u)
    ensures Unnoted(Do(s, Handle(n, step), u).conns, Do(s, Handle(n, step), u).clients)
  {
    if step.Register? {
      UnnotedJoin(s, n, u);
    } else {
      OthersNotLive(s, n, u);
      BeforeTheHook(s, n, step, u);
      UnnotedMove(s.conns, s.clients, Effect(s, n, step, u).clients, n, Next(s, n, step, u));
    }
  }

  lemma ConnectOneShot(s: State, u: Setup)
    requires Sound(s, u) && OneShotInvariant(s) && Enabled(s, Connect, u)
    ensures OneShotInvariant(Do(s, Connect, u))
  {
    assert s.seqNo + 1 !in s.conns;
  }

  lemma OneShotStep(s: State, a: Action, u: Setup)
    requires u.mode.OneShot? && u.maxClients == 1 && Sound(s, u) && OneShotInvariant(s) && Enabled(s, a, u)
    ensures OneShotInvariant(Do(s, a, u))
  {
    match a
    case Connect => ConnectOneShot(s, u);
    case Handle(n, step) =>
      ProgressStep(s, n, step, u);
      UnnotedStep(s, n, step, u);
      PeersStayAway(s, n, step, u);
    case PeerDown(_) =>
  }

  lemma {:induction false} AlwaysOneShot(s: State, actions: seq<Action>, u: Setup)
    requires u.mode.OneShot? && u.maxClients == 1 && Sound(s, u) && OneShotInvariant(s) && Run(s, actions, u)
    ensures OneShotInvariant(After(s, actions, u))
    decreases |actions|
  {
    if actions != [] {
      OneShotStep(s, actions[0], u);
      SoundStep(s, actions[0], u);
      AlwaysOneShot(Do(s, actions[0], u), actions[1..], u);
    }
  }

  /** How many clipboard messages were written to clients in all. */
  function Writes(log: seq<Entry>): nat
    decreases |log|
  {
    if log == [] then 0 else Writes(log[..|log| - 1]) + |log[|log| - 1].to|
  }

  lemma {:induction false} OnlyTheFirstWrites(log: seq<Entry>)
    requires log != [] && |log[0].to| == 1 && forall p :: 0 < p < |log| ==> log[p].to == {}
    ensures Writes(log) == 1
    decreases |log|
  {
    if |log| > 1 {
      OnlyTheFirstWrites(log[..|log| - 1]);
    } else {
      assert log[..0] == [];
    }
  }

  /**
   The one-shot sender never writes twice; once the first client to complete hello is through the
   hook, exactly one message has been written, to that client, and `delivered` was closed once.
   */
  lemma OneShotExactlyOnce(actions: seq<Action>, u: Setup)
    requires u.mode.OneShot? && u.maxClients == 1 && Run(INITIAL, actions, u)
    ensures var s := After(INITIAL, actions, u);
            && s.delivered <= 1 && Writes(s.log) <= 1 && s.peers == map[]
            && (s.delivered == 1 ==> Writes(s.log) == 1)
            && (s.greeted != [] && s.greeted[0] in s.conns
                && !s.conns[s.greeted[0]].phase.Greeted? && !s.conns[s.greeted[0]].phase.InHook?
                && !s.conns[s.greeted[0]].phase.HookSent?
                ==> s.delivered == 1 && s.log[0].to == {s.greeted[0]})
  {
    AlwaysOneShot(INITIAL, actions, u);
    var s := After(INITIAL, actions, u);
    if s.log != [] {
      OnlyTheFirstWrites(s.log);
    }
  }
}
