/**
 When does a client get its own clip back while handlers run concurrently? After its clip was
 accepted the gate and its own note keep its key away from it, whoever sends what; the one thing they
 do not stop is another handler that had the same key accepted earlier and has yet to relay it
 (src/internal/websocket/handlers.go:129-144, broadcast.go:23-50).
 */
module HandlersBounce {
  import opened Codec
  import opened Gates
  import opened ServerSpec
  import opened Handlers
  import opened HandlersOrder
  import HandlersModes
  import Ids

  /**
   Connection n's clip with this key was accepted at `time`, it last sent it no earlier than `since`,
   and no other key was let through after it.
   */
  predicate Guarded(s: State, n: nat, key: Key, since: int, time: int) {
    && s.gate == Gate(key, At(time))
    && Live(s.conns, n) && s.conns[n].id in s.clients
    && NotedSince(s.clients[s.conns[n].id].note, key, since)
  }

  predicate NotedSince(note: Note, key: Key, since: int) {
    note.key == key && note.at.At? && since <= note.at.time
  }

  /** Another handler has a clip with this key to relay. */
  predicate Threat(conns: Conns, m: nat, n: nat, key: Key, cfg: Config) {
    m != n && m in conns && Holding(conns[m].phase)
    && KeyOf(conns[m].phase.c) == key && !TooBig(conns[m].phase.c, cfg)
  }

  predicate NoThreat(conns: Conns, n: nat, key: Key, cfg: Config) {
    forall m :: m in conns ==> !Threat(conns, m, n, key, cfg)
  }

  /** Steps within the windows of the note and the gate, before another key reaches the gate, while n stays. */
  predicate Calm(s: State, a: Action, n: nat, key: Key, since: int, time: int, u: Setup)
    requires Enabled(s, a, u)
  {
    match a
    case Local(c, _, now, _) => KeyOf(c) == key ==> now - since < u.cfg.window
    case Handle(m, step) => (
      match step
      case ConsultGate(now) => KeyOf(s.conns[m].phase.c) == key && now - time < u.cfg.window
      case Receive(c, _, now) => m == n ==> KeyOf(c) == key && since <= now
      case _ => m == n ==> !Next(s, m, step, u).Gone?)
    case _ => true
  }

  /** The fan-outs that put this key on the wire. */
  predicate Carries(s: State, a: Action, key: Key) {
    match a
    case Local(c, _, _, _) => KeyOf(c) == key
    case Handle(m, Relay(_)) => m in s.conns && s.conns[m].phase.Relaying? && KeyOf(s.conns[m].phase.c) == key
    case _ => false
  }

  function SentTo(s: State, n: nat): seq<ClipboardMsg>
    requires n in s.conns && s.conns[n].id in s.clients
  {
    s.clients[s.conns[n].id].sent
  }

  // One step

  lemma GateStays(s: State, a: Action, n: nat, key: Key, since: int, time: int, u: Setup)
    requires s.gate == Gate(key, At(time)) && Enabled(s, a, u) && Calm(s, a, n, key, since, time, u)
    ensures Do(s, a, u).gate == s.gate
  {
    if a.Handle? {
      match a.step
      case Register =>
      case Hello(_) =>
      case Hook =>
      case HookBroadcast(_, _) =>
      case HookClose =>
      case Receive(_, _, _) =>
      case ConsultGate(_) =>
      case Callback(_) =>
      case CloseReceived =>
      case Relay(_) =>
      case Disconnect =>
    }
  }

  lemma OtherId(s: State, m: nat, n: nat, u: Setup)
    requires Sound(s, u) && m in s.conns && Live(s.conns, n) && m != n
    ensures s.conns[m].id != s.conns[n].id
  {
    if !InTable(s.conns[m].phase) {
      NewIdIsFree(s.conns, s.owner, s.seqNo, m);
    }
  }

  /** Joining, greeting, receiving and leaving touch the connection's own entry. */
  lemma OwnEntryOnly(s: State, m: nat, step: Step, id: string, u: Setup)
    requires Enabled(s, Handle(m, step), u) && id in s.clients && id != s.conns[m].id
    requires step.Register? || step.Hello? || step.Receive? || step.Disconnect?
    ensures id in Effect(s, m, step, u).clients && Effect(s, m, step, u).clients[id] == s.clients[id]
  {
  }

  lemma FanOutKeepsNotes(s: State, m: nat, step: Step, id: string, u: Setup)
    requires Enabled(s, Handle(m, step), u) && id in s.clients && (step.HookBroadcast? || step.Relay?)
    ensures id in Effect(s, m, step, u).clients && Effect(s, m, step, u).clients[id].note == s.clients[id].note
  {
  }

  lemma TableUntouched(s: State, m: nat, step: Step, u: Setup)
    requires Enabled(s, Handle(m, step), u)
    requires step.Hook? || step.HookClose? || step.ConsultGate? || step.Callback? || step.CloseReceived?
    ensures Effect(s, m, step, u).clients == s.clients
  {
  }

  /** A step of another handler leaves n's entry alone, but for what a fan-out adds. */
  lemma OthersSpareNote(s: State, m: nat, step: Step, n: nat, u: Setup)
    requires Sound(s, u) && Live(s.conns, n) && s.conns[n].id in s.clients && m != n
    requires Enabled(s, Handle(m, step), u)
    ensures var t, id := Effect(s, m, step, u), s.conns[n].id;
            id in t.clients && t.clients[id].note == s.clients[id].note
  {
    OtherId(s, m, n, u);
    if step.Register? || step.Hello? || step.Receive? || step.Disconnect? {
      OwnEntryOnly(s, m, step, s.conns[n].id, u);
    } else if step.HookBroadcast? || step.Relay? {
      FanOutKeepsNotes(s, m, step, s.conns[n].id, u);
    } else {
      TableUntouched(s, m, step, u);
    }
  }

  /** n's own steps keep its entry unless it leaves, and its note unless it sends. */
  lemma OwnStepsNote(s: State, n: nat, step: Step, u: Setup)
    requires Live(s.conns, n) && s.conns[n].id in s.clients && Enabled(s, Handle(n, step), u)
    requires !Next(s, n, step, u).Gone?
    ensures var t, id := Effect(s, n, step, u), s.conns[n].id;
            && id in t.clients
            && t.clients[id].note == if step.Receive? then Note(KeyOf(step.c), At(step.now)) else s.clients[id].note
  {
    match step
    case Register =>
    case Hello(_) =>
    case Hook =>
    case HookBroadcast(_, _) =>
    case HookClose =>
    case Receive(_, _, _) =>
    case ConsultGate(_) =>
    case Callback(_) =>
    case CloseReceived =>
    case Relay(_) =>
    case Disconnect =>
  }

  lemma GuardStays(s: State, a: Action, n: nat, key: Key, since: int, time: int, u: Setup)
    requires Sound(s, u) && Guarded(s, n, key, since, time)
    requires Enabled(s, a, u) && Calm(s, a, n, key, since, time, u)
    ensures Guarded(Do(s, a, u), n, key, since, time)
    ensures Do(s, a, u).conns[n].id == s.conns[n].id
  {
    GateStays(s, a, n, key, since, time, u);
    match a
    case Connect => assert s.seqNo + 1 !in s.conns;
    case Handle(m, step) =>
      if m == n {
        OwnStepsNote(s, n, step, u);
      } else {
        OthersSpareNote(s, m, step, n, u);
      }
    case Local(_, _, _, _) =>
    case PeerUp(_) =>
    case PeerDown(_) =>
  }

  /** No handler comes to hold a clip but by passing the gate, and the gate holds this key. */
  lemma HeldBefore(s: State, m: nat, step: Step, n: nat, key: Key, since: int, time: int, u: Setup)
    requires s.gate == Gate(key, At(time))
    requires Enabled(s, Handle(m, step), u) && Calm(s, Handle(m, step), n, key, since, time, u)
    ensures var q := Next(s, m, step, u);
            Holding(q) ==> Holding(s.conns[m].phase) && q.c == s.conns[m].phase.c
  {
  }

  lemma NoThreatArises(s: State, a: Action, n: nat, key: Key, since: int, time: int, u: Setup)
    requires Sound(s, u) && Guarded(s, n, key, since, time) && NoThreat(s.conns, n, key, u.cfg)
    requires Enabled(s, a, u) && Calm(s, a, n, key, since, time, u)
    ensures NoThreat(Do(s, a, u).conns, n, key, u.cfg)
  {
    match a
    case Handle(m, step) =>
      HeldBefore(s, m, step, n, key, since, time, u);
      assert !Threat(s.conns, m, n, key, u.cfg);
    case Connect =>
    case Local(_, _, _, _) =>
    case PeerUp(_) =>
    case PeerDown(_) =>
  }

  /** A local fan-out passes n over, and the only relays of this key are n's own. */
  lemma NotWritten(s: State, a: Action, n: nat, key: Key, since: int, time: int, u: Setup)
    requires Sound(s, u) && Guarded(s, n, key, since, time) && NoThreat(s.conns, n, key, u.cfg)
    requires Enabled(s, a, u) && Calm(s, a, n, key, since, time, u) && Carries(s, a, key)
    ensures var t, id := Do(s, a, u), s.conns[n].id;
            id in t.clients && t.clients[id].sent == s.clients[id].sent
  {
    var id := s.conns[n].id;
    match a
    case Local(c, _, now, _) =>
      assert id in Echoers(s.clients, KeyOf(c), now, u.cfg);
    case Handle(m, _) =>
      assert !Threat(s.conns, m, n, key, u.cfg);
      if m == n {
        Ids.RoundTrip(n);
        assert id in Origin(id);
      }
  }

  // Whole runs

  predicate CalmRun(s: State, actions: seq<Action>, n: nat, key: Key, since: int, time: int, u: Setup)
    decreases |actions|
  {
    actions == [] ||
    (Enabled(s, actions[0], u) && Calm(s, actions[0], n, key, since, time, u)
     && CalmRun(Do(s, actions[0], u), actions[1..], n, key, since, time, u))
  }

  /** No step of the run writes a clip with this key to connection n. */
  predicate NeverWritten(s: State, actions: seq<Action>, n: nat, key: Key, u: Setup)
    decreases |actions|
  {
    actions == [] ||
    (Enabled(s, actions[0], u)
     && var t := Do(s, actions[0], u);
        && n in s.conns && s.conns[n].id in s.clients && n in t.conns && t.conns[n].id in t.clients
        && (Carries(s, actions[0], key) ==> SentTo(t, n) == SentTo(s, n))
        && NeverWritten(t, actions[1..], n, key, u))
  }

  /** However the handlers are interleaved: with no such relay pending, nothing writes the key back to n. */
  lemma {:induction false} ConcurrentNoBounce(
    s: State, actions: seq<Action>, n: nat, key: Key, since: int, time: int, u: Setup)
    requires Sound(s, u) && Guarded(s, n, key, since, time) && NoThreat(s.conns, n, key, u.cfg)
    requires CalmRun(s, actions, n, key, since, time, u)
    ensures NeverWritten(s, actions, n, key, u)
    decreases |actions|
  {
    if actions != [] {
      var a := actions[0];
      SoundStep(s, a, u);
      GuardStays(s, a, n, key, since, time, u);
      NoThreatArises(s, a, n, key, since, time, u);
      if Carries(s, a, key) {
        NotWritten(s, a, n, key, since, time, u);
      }
      ConcurrentNoBounce(Do(s, a, u), actions[1..], n, key, since, time, u);
    }
  }

  // A pending relay

  /** The relay goes to every client but the relaying handler's own. */
  lemma RelayWrites(s: State, m: nat, n: nat, u: Setup)
    requires Sound(s, u) && Live(s.conns, n) && s.conns[n].id in s.clients && m != n
    requires m in s.conns && s.conns[m].phase.Relaying? && !TooBig(s.conns[m].phase.c, u.cfg)
    ensures Enabled(s, Handle(m, Relay(0)), u)
    ensures var t := Do(s, Handle(m, Relay(0)), u);
            n in t.conns && t.conns[n].id in t.clients && |SentTo(t, n)| == |SentTo(s, n)| + 1
  {
    OtherId(s, m, n, u);
  }

  lemma CalmFirst(s: State, a: Action, rest: seq<Action>, n: nat, key: Key, since: int, time: int, u: Setup)
    requires Enabled(s, a, u) && Calm(s, a, n, key, since, time, u)
    requires CalmRun(Do(s, a, u), rest, n, key, since, time, u)
    ensures CalmRun(s, [a] + rest, n, key, since, time, u)
    ensures NeverWritten(s, [a] + rest, n, key, u) ==> NeverWritten(Do(s, a, u), rest, n, key, u)
  {
    assert ([a] + rest)[1..] == rest;
  }

  lemma RelayBounces(s: State, m: nat, n: nat, key: Key, since: int, time: int, u: Setup)
    returns (actions: seq<Action>)
    requires Sound(s, u) && Guarded(s, n, key, since, time) && Threat(s.conns, m, n, key, u.cfg)
    requires s.conns[m].phase.Relaying?
    ensures CalmRun(s, actions, n, key, since, time, u) && !NeverWritten(s, actions, n, key, u)
  {
    RelayWrites(s, m, n, u);
    actions := [Handle(m, Relay(0))] + [];
    CalmFirst(s, Handle(m, Relay(0)), [], n, key, since, time, u);
  }

  /** The step that brings a handler to its relay. */
  function Finish(p: Phase): Step {
    if p.Checked? then CloseReceived else Callback(false)
  }

  lemma FinishLeadsToRelay(s: State, m: nat, n: nat, key: Key, since: int, time: int, u: Setup)
    requires Sound(s, u) && Guarded(s, n, key, since, time) && Threat(s.conns, m, n, key, u.cfg)
    requires !s.conns[m].phase.Relaying?
    ensures var a := Handle(m, Finish(s.conns[m].phase));
            && Enabled(s, a, u) && Calm(s, a, n, key, since, time, u)
            && Threat(Do(s, a, u).conns, m, n, key, u.cfg) && Do(s, a, u).conns[m].phase.Relaying?
  {
  }

  lemma ThreatBounces(s: State, m: nat, n: nat, key: Key, since: int, time: int, u: Setup)
    returns (actions: seq<Action>)
    requires Sound(s, u) && Guarded(s, n, key, since, time) && Threat(s.conns, m, n, key, u.cfg)
    ensures CalmRun(s, actions, n, key, since, time, u) && !NeverWritten(s, actions, n, key, u)
  {
    if s.conns[m].phase.Relaying? {
      actions := RelayBounces(s, m, n, key, since, time, u);
    } else {
      var a := Handle(m, Finish(s.conns[m].phase));
      FinishLeadsToRelay(s, m, n, key, since, time, u);
      SoundStep(s, a, u);
      GuardStays(s, a, n, key, since, time, u);
      var rest := RelayBounces(Do(s, a, u), m, n, key, since, time, u);
      CalmFirst(s, a, rest, n, key, since, time, u);
      actions := [a] + rest;
    }
  }

  /**
   Within its windows, and until another key is let through, a client can get its own accepted clip
   back exactly when another handler has a clip with that key still to relay.
   */
  lemma BouncesIffPending(s: State, n: nat, key: Key, since: int, time: int, u: Setup)
    requires Sound(s, u) && Guarded(s, n, key, since, time)
    ensures (exists actions :: CalmRun(s, actions, n, key, since, time, u) && !NeverWritten(s, actions, n, key, u))
       <==> exists m :: m in s.conns && Threat(s.conns, m, n, key, u.cfg)
  {
    if m :| m in s.conns && Threat(s.conns, m, n, key, u.cfg) {
      var actions := ThreatBounces(s, m, n, key, since, time, u);
    } else {
      forall actions | CalmRun(s, actions, n, key, since, time, u)
        ensures NeverWritten(s, actions, n, key, u)
      {
        ConcurrentNoBounce(s, actions, n, key, since, time, u);
      }
    }
  }

  // An acceptance leads there

  /** A handler that has noted a clip finds that note on its client. */
  predicate NotesMatch(s: State) {
    forall n :: n in s.conns && s.conns[n].phase.Noted? ==>
      s.conns[n].id in s.clients && NoteMatches(s.clients[s.conns[n].id].note, s.conns[n].phase.c)
  }

  predicate NoteMatches(note: Note, c: Content) {
    note.key == KeyOf(c) && note.at.At?
  }

  lemma OthersKeepNotes(s: State, a: Action, u: Setup)
    requires Enabled(s, a, u) && !a.Handle?
    ensures var t := Do(s, a, u);
            && (forall id :: id in s.clients ==> id in t.clients && t.clients[id].note == s.clients[id].note)
            && (forall n :: n in t.conns && t.conns[n].phase.Noted? ==> n in s.conns && t.conns[n] == s.conns[n])
  {
  }

  lemma HandlerNotes(s: State, m: nat, step: Step, n: nat, u: Setup)
    requires Sound(s, u) && NotesMatch(s) && Enabled(s, Handle(m, step), u)
    requires var q := if m == n then Next(s, m, step, u) else if n in s.conns then s.conns[n].phase else Gone;
             q.Noted?
    ensures var t := Do(s, Handle(m, step), u);
            && n in t.conns && t.conns[n].id in t.clients && t.conns[n].phase.Noted?
            && NoteMatches(t.clients[t.conns[n].id].note, t.conns[n].phase.c)
  {
    if m == n {
      assert step.Receive?;
      assert s.conns[n].id in s.owner;
    } else {
      OthersSpareNote(s, m, step, n, u);
    }
  }

  lemma NotesMatchStep(s: State, a: Action, u: Setup)
    requires Sound(s, u) && NotesMatch(s) && Enabled(s, a, u)
    ensures NotesMatch(Do(s, a, u))
  {
    var t := Do(s, a, u);
    if a.Handle? {
      forall n | n in t.conns && t.conns[n].phase.Noted?
        ensures t.conns[n].id in t.clients && NoteMatches(t.clients[t.conns[n].id].note, t.conns[n].phase.c)
      {
        HandlerNotes(s, a.n, a.step, n, u);
      }
    } else {
      OthersKeepNotes(s, a, u);
    }
  }

  lemma {:induction false} AlwaysNotesMatch(s: State, actions: seq<Action>, u: Setup)
    requires Sound(s, u) && NotesMatch(s) && Run(s, actions, u)
    ensures NotesMatch(After(s, actions, u))
    decreases |actions|
  {
    if actions != [] {
      SoundStep(s, actions[0], u);
      NotesMatchStep(s, actions[0], u);
      AlwaysNotesMatch(Do(s, actions[0], u), actions[1..], u);
    }
  }

  /** In every reachable state, letting a clip through leaves its sender guarded. */
  lemma AcceptanceGuards(actions: seq<Action>, n: nat, now: int, u: Setup) returns (since: int)
    requires Run(INITIAL, actions, u)
    requires var s := After(INITIAL, actions, u);
             Enabled(s, Handle(n, ConsultGate(now)), u)
             && !IsEcho(s.gate, KeyOf(s.conns[n].phase.c), now, u.cfg.window)
    ensures var s := After(INITIAL, actions, u);
            Guarded(Do(s, Handle(n, ConsultGate(now)), u), n, KeyOf(s.conns[n].phase.c), since, now)
  {
    var s := After(INITIAL, actions, u);
    AlwaysNotesMatch(INITIAL, actions, u);
    since := s.clients[s.conns[n].id].note.at.time;
  }

  // It happens

  /** Connections 1, 2 and 3 are being served. */
  predicate ThreeServed(s: State) {
    && 1 in s.conns && 2 in s.conns && 3 in s.conns
    && s.conns[1].phase.Serving? && s.conns[2].phase.Serving? && s.conns[3].phase.Serving?
    && s.gate == CLOSED
  }

  lemma GreetedThrice(s: State, s1: State, s2: State, t: State)
    requires s.seqNo == 0 && s.gate == CLOSED
    requires HandlersModes.Greeted(s, s1) && HandlersModes.Greeted(s1, s2) && HandlersModes.Greeted(s2, t)
    ensures ThreeServed(t)
  {
  }

  lemma ThreeClients(s: State, u: Setup) returns (actions: seq<Action>, t: State)
    requires u.mode.Daemon? && !(0 < u.maxClients < 3) && s.seqNo == 0 && |s.clients| == 0 && s.gate == CLOSED
    ensures Run(s, actions, u) && After(s, actions, u) == t && ThreeServed(t)
  {
    var a1, s1 := HandlersModes.Greet(s, u);
    var a2, s2 := HandlersModes.Greet(s1, u);
    var a3, s3 := HandlersModes.Greet(s2, u);
    GreetedThrice(s, s1, s2, s3);
    HandlersModes.RunConcat(s1, a2, a3, u);
    HandlersModes.RunConcat(s, a1, a2 + a3, u);
    actions, t := a1 + (a2 + a3), s3;
  }

  /** B's x passes and stalls, C's y passes, A's x is noted. */
  lemma ThreePushes(s: State, x: Content, y: Content, u: Setup) returns (actions: seq<Action>, t: State)
    requires ThreeServed(s) && Rivals(x, y)
    ensures Run(s, actions, u) && After(s, actions, u) == t
    ensures 1 in t.conns && t.conns[1].phase.Accepted? && t.conns[1].phase.c == x
    ensures 3 in t.conns && t.conns[3].phase == Noted(x, "") && t.gate == Gate(KeyOf(y), At(0))
  {
    var b := HandlersModes.Push(s, 1, x, 0, u);
    var s1 := After(s, b, u);
    var c := HandlersModes.Push(s1, 2, y, 0, u);
    var s2 := After(s1, c, u);
    HandlersModes.ReceiveStep(s2, 3, x, 0, u);
    var a := Handle(3, Receive(x, "", 0));
    t := Do(s2, a, u);
    RunFirst(s2, a, [], u);
    HandlersModes.RunConcat(s1, c, [a] + [], u);
    HandlersModes.RunConcat(s, b, c + ([a] + []), u);
    actions := b + (c + ([a] + []));
  }

  /**
   From the start, with three clients: A's clip is accepted while B's handler still has the same clip
   to relay. No time passes and A repeats nothing.
   */
  lemma PendingIsReachable(x: Content, y: Content, u: Setup) returns (actions: seq<Action>, since: int)
    requires u.mode.Daemon? && !(0 < u.maxClients < 3) && Rivals(x, y)
    ensures Run(INITIAL, actions, u)
    ensures var s := After(INITIAL, actions, u);
            Sound(s, u) && Guarded(s, 3, KeyOf(x), since, 0) && Threat(s.conns, 1, 3, KeyOf(x), u.cfg)
  {
    var join, s1 := ThreeClients(INITIAL, u);
    var push, s2 := ThreePushes(s1, x, y, u);
    HandlersModes.RunConcat(INITIAL, join, push, u);
    since := AcceptanceGuards(join + push, 3, 0, u);
    var pass := Handle(3, ConsultGate(0));
    HandlersModes.ConsultStep(s2, 3, 0, u);
    RunFirst(s2, pass, [], u);
    HandlersModes.RunConcat(INITIAL, join + push, [pass] + [], u);
    actions := join + push + ([pass] + []);
    SoundFromStart(actions, u);
  }

  /** And then, with nothing else happening, B's handler writes A's clip back to A. */
  lemma BounceHappens(x: Content, y: Content, u: Setup)
    returns (actions: seq<Action>, since: int, rest: seq<Action>)
    requires u.mode.Daemon? && !(0 < u.maxClients < 3) && Rivals(x, y)
    ensures Run(INITIAL, actions, u)
    ensures var s := After(INITIAL, actions, u);
            && Guarded(s, 3, KeyOf(x), since, 0)
            && CalmRun(s, rest, 3, KeyOf(x), since, 0, u) && !NeverWritten(s, rest, 3, KeyOf(x), u)
  {
    actions, since := PendingIsReachable(x, y, u);
    rest := ThreatBounces(After(INITIAL, actions, u), 1, 3, KeyOf(x), since, 0, u);
  }
}
