/**
 Every interleaving of a server's connection handlers (src/internal/websocket/handlers.go), each
 split where it takes or leaves `s.mu`, under the three set-ups the program runs: the daemon,
 `clipshare watch` (src/internal/cli/commands/watch/watch.go) and the one-shot sender
 (src/internal/cli/commands/send/send.go).
 */
module Handlers {
  import opened Prelude
  import opened Codec
  import opened Gates
  import opened ServerSpec
  import Ids

  datatype Mode = Daemon | WatchOnce | OneShot(content: Content)

  datatype Setup = Setup(cfg: Config, maxClients: int, mode: Mode, deviceName: string)

  /** Where one connection's handler is. */
  datatype Phase =
    | Dialled                                   // has an id, not yet in the table
    | Greeting                                  // in the table, hello awaited
    | Greeted                                   // hello accepted, connect hook to be called
    | InHook                                    // inside once.Do, about to broadcast
    | HookSent                                  // inside once.Do, about to close `delivered`
    | Serving                                   // reading the next message
    | Noted(c: Content, from: string)           // clip noted, gate not consulted
    | Accepted(c: Content, from: string, k: nat)  // gate passed, callback to be called
    | Checked(c: Content, from: string, k: nat)   // callback found `received` open, about to close it
    | Relaying(c: Content, from: string, k: nat)  // callback returned, broadcast to come
    | Gone

  predicate InTable(p: Phase) {
    !p.Dialled? && !p.Gone?
  }

  /** One connection: the id it was given and its handler. */
  datatype Conn = Conn(id: string, phase: Phase)

  type Conns = map<nat, Conn>

  type Owners = map<string, nat>

  datatype Once = Fresh | Running(n: nat) | Done

  /** The k-th clip the gate let through came over connection n. */
  datatype Accept = Accept(n: nat, c: Content)

  /**
   One fan-out: the message, the connections it was written to, and the accepted clip it relays,
   if any.
   */
  datatype Entry = Entry(msg: ClipboardMsg, to: set<nat>, relays: Option<nat>)

  datatype State = State(
    seqNo: nat,
    conns: Conns,
    clients: map<string, ClientView>,
    owner: Owners,          // the connection a table entry points to
    peers: map<nat, PeerView>,
    since: map<nat, nat>,   // how many fan-outs there had been when a peer registered
    gate: Gate,
    once: Once,
    received: nat,          // how often `received` was closed
    delivered: nat,         // how often `delivered` was closed
    greeted: seq<nat>,      // connections in the order they completed hello
    accepts: seq<Accept>,   // clips in the order the gate let them through
    log: seq<Entry>,        // fan-outs, in the order they held `s.mu`
    relayed: map<nat, nat>  // where in the log an accepted clip was relayed
  )

  datatype Step =
    | Register
    | Hello(good: bool)
    | Hook
    | HookBroadcast(now: int, ts: int)
    | HookClose
    | Receive(c: Content, from: string, now: int)
    | ConsultGate(now: int)
    | Callback(writes: bool)
    | CloseReceived
    | Relay(ts: int)
    | Disconnect

  datatype Action =
    | Connect
    | Handle(n: nat, step: Step)
    | Local(c: Content, from: string, now: int, ts: int)
    | PeerUp(slot: nat)
    | PeerDown(slot: nat)

  const INITIAL := State(0, map[], map[], map[], map[], map[], CLOSED, Fresh, 0, 0, [], [], [], map[])

  predicate Ready(p: Phase, step: Step, once: Once, u: Setup) {
    match step
    case Register => p.Dialled?
    case Hello(_) => p.Greeting?
    case Hook => p.Greeted? && (u.mode.OneShot? ==> !once.Running?)
    case HookBroadcast(_, _) => p.InHook? && u.mode.OneShot?
    case HookClose => p.HookSent?
    case Receive(c, _, _) => p.Serving? && Stable(c)
    case ConsultGate(_) => p.Noted?
    case Callback(_) => p.Accepted?
    case CloseReceived => p.Checked?
    case Relay(_) => p.Relaying?
    case Disconnect => p.Greeting? || p.Serving?
  }

  predicate Enabled(s: State, a: Action, u: Setup) {
    match a
    case Connect => s.seqNo + 1 < Ids.WRAP
    case Handle(n, step) => n in s.conns && Ready(s.conns[n].phase, step, s.once, u)
    case Local(_, _, _, _) => u.mode.Daemon?
    case PeerUp(slot) => u.mode.Daemon? && slot !in s.peers
    case PeerDown(slot) => slot in s.peers
  }

  /** Where the handler is after a step. */
  function Next(s: State, n: nat, step: Step, u: Setup): (q: Phase)
    requires n in s.conns && Ready(s.conns[n].phase, step, s.once, u)
    ensures InTable(q) <==> !q.Gone?
    ensures InTable(s.conns[n].phase) <==> !step.Register?
  {
    var p := s.conns[n].phase;
    match step
    case Register => if 0 < u.maxClients <= |s.clients| then Gone else Greeting
    case Hello(good) => if good then Greeted else Gone
    case Hook => if u.mode.OneShot? && s.once.Fresh? then InHook else Serving
    case HookBroadcast(_, _) => HookSent
    case HookClose => Serving
    case Receive(c, from, _) => Noted(c, from)
    case ConsultGate(now) =>
      if IsEcho(s.gate, KeyOf(p.c), now, u.cfg.window) then Serving else Accepted(p.c, p.from, |s.accepts|)
    case Callback(writes) =>
      if u.mode.WatchOnce? && writes && s.received == 0 then Checked(p.c, p.from, p.k)
      else Relaying(p.c, p.from, p.k)
    case CloseReceived => Relaying(p.c, p.from, p.k)
    case Relay(_) => Serving
    case Disconnect => Gone
  }

  function Recipients(s: State, skipped: set<string>): set<nat> {
    set n | n in s.conns && InTable(s.conns[n].phase) && s.conns[n].id !in skipped
  }

  function Publish(s: State, msg: ClipboardMsg, skipped: set<string>, relays: Option<nat>): State {
    s.(clients := WriteAll(s.clients, msg, skipped),
       peers := SendAll(s.peers, msg),
       log := s.log + [Entry(msg, Recipients(s, skipped), relays)],
       relayed := if relays.Some? then s.relayed[relays.value := |s.log|] else s.relayed)
  }

  /** What the step does besides moving the handler on. */
  function Effect(s: State, n: nat, step: Step, u: Setup): (t: State)
    requires Enabled(s, Handle(n, step), u)
    ensures t.conns == s.conns && t.seqNo == s.seqNo
  {
    var p, id := s.conns[n].phase, s.conns[n].id;
    match step
    case Register =>
      if 0 < u.maxClients <= |s.clients| then s
      else s.(clients := s.clients[id := ClientView(NO_NOTE, [])], owner := s.owner[id := n])
    case Hello(good) =>
      if good then s.(greeted := s.greeted + [n]) else s.(clients := s.clients - {id}, owner := s.owner - {id})
    case Hook => if u.mode.OneShot? && s.once.Fresh? then s.(once := Running(n)) else s
    case HookBroadcast(now, ts) =>
      var c := u.mode.content;
      Publish(s, ContentMsg(c, ts, u.deviceName), Echoers(s.clients, KeyOf(c), now, u.cfg), None)
    case HookClose => s.(once := Done, delivered := s.delivered + 1)
    case Receive(c, _, now) =>
      if id in s.clients then s.(clients := s.clients[id := s.clients[id].(note := Note(KeyOf(c), At(now)))]) else s
    case ConsultGate(now) =>
      if IsEcho(s.gate, KeyOf(p.c), now, u.cfg.window) then s
      else s.(gate := Arrive(s.gate, KeyOf(p.c), now, u.cfg.window), accepts := s.accepts + [Accept(n, p.c)])
    case Callback(_) => s
    case CloseReceived => s.(received := s.received + 1)
    case Relay(ts) =>
      if TooBig(p.c, u.cfg) then s else Publish(s, ContentMsg(p.c, ts, p.from), Origin(id), Some(p.k))
    case Disconnect => s.(clients := s.clients - {id}, owner := s.owner - {id})
  }

  function Do(s: State, a: Action, u: Setup): State
    requires Enabled(s, a, u)
  {
    match a
    case Connect =>
      s.(seqNo := s.seqNo + 1, conns := s.conns[s.seqNo + 1 := Conn(Ids.Format(s.seqNo + 1), Dialled)])
    case Handle(n, step) =>
      Effect(s, n, step, u).(conns := s.conns[n := s.conns[n].(phase := Next(s, n, step, u))])
    case Local(c, from, now, ts) =>
      Publish(s, ContentMsg(c, ts, from), Echoers(s.clients, KeyOf(c), now, u.cfg), None)
    case PeerUp(slot) => s.(peers := s.peers[slot := PeerView(true, [])], since := s.since[slot := |s.log|])
    case PeerDown(slot) => s.(peers := s.peers - {slot}, since := s.since - {slot})
  }

  predicate Run(s: State, actions: seq<Action>, u: Setup)
    decreases |actions|
  {
    actions == [] || (Enabled(s, actions[0], u) && Run(Do(s, actions[0], u), actions[1..], u))
  }

  function After(s: State, actions: seq<Action>, u: Setup): State
    requires Run(s, actions, u)
    decreases |actions|
  {
    if actions == [] then s else After(Do(s, actions[0], u), actions[1..], u)
  }

  lemma RunFirst(s: State, a: Action, rest: seq<Action>, u: Setup)
    requires Enabled(s, a, u) && Run(Do(s, a, u), rest, u)
    ensures Run(s, [a] + rest, u) && After(s, [a] + rest, u) == After(Do(s, a, u), rest, u)
  {
    assert ([a] + rest)[1..] == rest;
  }

  // The client table

  predicate Live(conns: Conns, n: nat) {
    n in conns && InTable(conns[n].phase)
  }

  /** Ids are the printed sequence numbers. */
  predicate Printed(conns: Conns, seqNo: nat) {
    forall n :: n in conns ==> n <= seqNo && conns[n].id == Ids.Format(n)
  }

  /** Table entries are exactly the connections between registration and deregistration. */
  predicate TableExact(conns: Conns, owner: Owners) {
    && (forall n :: n in conns && InTable(conns[n].phase) ==> conns[n].id in owner && owner[conns[n].id] == n)
    && (forall id :: id in owner ==> Live(conns, owner[id]) && conns[owner[id]].id == id)
  }

  predicate WithinCap(owner: Owners, cap: int) {
    cap > 0 ==> |owner| <= cap
  }

  /** A connection that is about to be registered has an id no entry uses. */
  lemma NewIdIsFree(conns: Conns, owner: Owners, seqNo: nat, n: nat)
    requires Printed(conns, seqNo) && TableExact(conns, owner)
    requires n in conns && !InTable(conns[n].phase)
    ensures conns[n].id !in owner && conns[n].id != ""
  {
    var id := conns[n].id;
    Ids.RoundTrip(n);
    if id in owner {
      Ids.Injective(owner[id], n);
    }
  }

  lemma MoveKeeps(conns: Conns, owner: Owners, n: nat, p: Phase)
    requires TableExact(conns, owner)
    requires n in conns && InTable(conns[n].phase) == InTable(p)
    ensures TableExact(conns[n := conns[n].(phase := p)], owner)
  {
  }

  lemma RegisterKeeps(conns: Conns, owner: Owners, n: nat)
    requires TableExact(conns, owner) && n in conns && conns[n].id !in owner
    ensures TableExact(conns[n := conns[n].(phase := Greeting)], owner[conns[n].id := n])
  {
  }

  lemma LeaveKeeps(conns: Conns, owner: Owners, n: nat)
    requires TableExact(conns, owner) && Live(conns, n)
    ensures TableExact(conns[n := conns[n].(phase := Gone)], owner - {conns[n].id})
    ensures forall m :: m in conns && InTable(conns[m].phase) && m != n ==> conns[m].id in owner - {conns[n].id}
  {
  }

  lemma FewerEntries(owner: Owners, id: string)
    ensures |owner - {id}| <= |owner|
  {
    assert (owner - {id}).Keys == owner.Keys - {id};
    assert owner.Keys == (owner.Keys - {id}) + (owner.Keys * {id});
    assert |owner.Keys| == |owner| && |(owner - {id}).Keys| == |owner - {id}|;
  }

  predicate Sound(s: State, u: Setup) {
    && Printed(s.conns, s.seqNo)
    && TableExact(s.conns, s.owner)
    && WithinCap(s.owner, u.maxClients)
    && s.owner.Keys == s.clients.Keys
  }

  lemma SameSize(s: State, u: Setup)
    requires Sound(s, u)
    ensures |s.owner| == |s.clients|
  {
    assert |s.owner.Keys| == |s.owner| && |s.clients.Keys| == |s.clients|;
  }

  /** What a handler's step does to the table. */
  lemma EffectOnTable(s: State, n: nat, step: Step, u: Setup)
    requires Enabled(s, Handle(n, step), u)
    ensures Effect(s, n, step, u).owner ==
            var q := Next(s, n, step, u);
            if step.Register? then if q.Gone? then s.owner else s.owner[s.conns[n].id := n]
            else if q.Gone? then s.owner - {s.conns[n].id}
            else s.owner
  {
    match step
    case Register =>
    case Hello(_) =>
    case Hook =>
    case HookBroadcast(_, _) =>
    case HookClose =>
    case Receive(_, _, _) =>
    case ConsultGate(_) =>
    case Callback(_) =>
    case CloseReceived =>
    case Relay(_) =>
    case Disconnect =>
  }

  lemma EffectOnKeys(s: State, n: nat, step: Step, u: Setup)
    requires Enabled(s, Handle(n, step), u) && s.owner.Keys == s.clients.Keys
    ensures Effect(s, n, step, u).owner.Keys == Effect(s, n, step, u).clients.Keys
  {
    match step
    case Register =>
    case Hello(_) =>
    case Hook =>
    case HookBroadcast(_, _) =>
    case HookClose =>
    case Receive(_, _, _) =>
    case ConsultGate(_) =>
    case Callback(_) =>
    case CloseReceived =>
    case Relay(_) =>
    case Disconnect =>
  }

  lemma MoveKeepsPrinted(conns: Conns, seqNo: nat, n: nat, p: Phase)
    requires Printed(conns, seqNo) && n in conns
    ensures Printed(conns[n := conns[n].(phase := p)], seqNo)
  {
  }

  lemma AddKeeps(conns: Conns, owner: Owners, n: nat, c: Conn)
    requires TableExact(conns, owner) && n !in conns && c.phase.Dialled?
    ensures TableExact(conns[n := c], owner)
  {
  }

  lemma AddKeepsPrinted(conns: Conns, seqNo: nat, c: Conn)
    requires Printed(conns, seqNo) && c.id == Ids.Format(seqNo + 1)
    ensures seqNo + 1 !in conns
    ensures Printed(conns[seqNo + 1 := c], seqNo + 1)
  {
  }

  lemma HandleKeepsTable(s: State, n: nat, q: Phase, owner: Owners, cap: int)
    requires Printed(s.conns, s.seqNo) && TableExact(s.conns, s.owner) && WithinCap(s.owner, cap) && n in s.conns
    requires !q.Dialled?
    requires owner == if s.conns[n].phase.Dialled? then if q.Gone? then s.owner else s.owner[s.conns[n].id := n]
                      else if q.Gone? then s.owner - {s.conns[n].id}
                      else s.owner
    requires s.conns[n].phase.Dialled? ==> q.Gone? || (q.Greeting? && !(0 < cap <= |s.owner|))
    requires !s.conns[n].phase.Gone?
    ensures TableExact(s.conns[n := s.conns[n].(phase := q)], owner) && WithinCap(owner, cap)
  {
    if s.conns[n].phase.Dialled? {
      NewIdIsFree(s.conns, s.owner, s.seqNo, n);
      if q.Gone? {
        MoveKeeps(s.conns, s.owner, n, q);
      } else {
        RegisterKeeps(s.conns, s.owner, n);
        assert |owner| == |s.owner| + 1;
      }
    } else if q.Gone? {
      LeaveKeeps(s.conns, s.owner, n);
      FewerEntries(s.owner, s.conns[n].id);
    } else {
      MoveKeeps(s.conns, s.owner, n, q);
    }
  }

  lemma ConnectSound(s: State, u: Setup)
    requires Sound(s, u) && Enabled(s, Connect, u)
    ensures Sound(Do(s, Connect, u), u)
  {
    var t := Do(s, Connect, u);
    var c := t.conns[s.seqNo + 1];
    assert t.owner == s.owner && t.clients == s.clients && t.seqNo == s.seqNo + 1;
    AddKeepsPrinted(s.conns, s.seqNo, c);
    AddKeeps(s.conns, s.owner, s.seqNo + 1, c);
    assert t.conns == s.conns[s.seqNo + 1 := c];
  }

  lemma HandleSound(s: State, n: nat, step: Step, u: Setup)
    requires Sound(s, u) && Enabled(s, Handle(n, step), u)
    ensures Sound(Do(s, Handle(n, step), u), u)
  {
    SameSize(s, u);
    var q := Next(s, n, step, u);
    EffectOnTable(s, n, step, u);
    EffectOnKeys(s, n, step, u);
    MoveKeepsPrinted(s.conns, s.seqNo, n, q);
    HandleKeepsTable(s, n, q, Effect(s, n, step, u).owner, u.maxClients);
  }

  lemma SoundStep(s: State, a: Action, u: Setup)
    requires Sound(s, u) && Enabled(s, a, u)
    ensures Sound(Do(s, a, u), u)
  {
    match a
    case Connect => ConnectSound(s, u);
    case Handle(n, step) => HandleSound(s, n, step, u);
    case Local(_, _, _, _) =>
    case PeerUp(_) =>
    case PeerDown(_) =>
  }

  /** In every reachable state the table is exact, and a positive cap is never exceeded. */
  lemma {:induction false} AlwaysSound(s: State, actions: seq<Action>, u: Setup)
    requires Sound(s, u) && Run(s, actions, u)
    ensures Sound(After(s, actions, u), u)
    decreases |actions|
  {
    if actions != [] {
      SoundStep(s, actions[0], u);
      AlwaysSound(Do(s, actions[0], u), actions[1..], u);
    }
  }

  lemma SoundFromStart(actions: seq<Action>, u: Setup)
    requires Run(INITIAL, actions, u)
    ensures Sound(After(INITIAL, actions, u), u)
  {
    AlwaysSound(INITIAL, actions, u);
  }

  /** Leaving takes no entry out of the table but the connection's own. */
  lemma LeavingSparesOthers(s: State, n: nat, step: Step, u: Setup)
    requires Sound(s, u) && Enabled(s, Handle(n, step), u)
    requires !step.Register? && Next(s, n, step, u).Gone?
    ensures forall m :: m in s.conns && InTable(s.conns[m].phase) && m != n ==>
              s.conns[m].id in Effect(s, n, step, u).clients
  {
    EffectOnTable(s, n, step, u);
    EffectOnKeys(s, n, step, u);
    LeaveKeeps(s.conns, s.owner, n);
  }

  /**
   Registration never overwrites an entry, and leaving, whether after a session or over a refused
   hello, removes no entry but the connection's own.
   */
  lemma TableUpdates(actions: seq<Action>, u: Setup, n: nat)
    requires Run(INITIAL, actions, u)
    ensures var s := After(INITIAL, actions, u);
            && (Enabled(s, Handle(n, Register), u) ==> s.conns[n].id !in s.clients)
            && (forall step :: Enabled(s, Handle(n, step), u) && !step.Register? && Next(s, n, step, u).Gone? ==>
                  forall m :: m in s.conns && InTable(s.conns[m].phase) && m != n ==>
                    s.conns[m].id in Effect(s, n, step, u).clients)
  {
    SoundFromStart(actions, u);
    var s := After(INITIAL, actions, u);
    if Enabled(s, Handle(n, Register), u) {
      NewIdIsFree(s.conns, s.owner, s.seqNo, n);
    }
    forall step | Enabled(s, Handle(n, step), u) && !step.Register? && Next(s, n, step, u).Gone?
      ensures forall m :: m in s.conns && InTable(s.conns[m].phase) && m != n ==>
                s.conns[m].id in Effect(s, n, step, u).clients
    {
      LeavingSparesOthers(s, n, step, u);
    }
  }

  // One handler at a time

  function View(s: State, u: Setup, called: seq<(Content, string)>): ServerView {
    ServerView(s.clients, s.peers, s.gate, u.maxClients, called)
  }

  predicate MayReceive(s: State, n: nat, c: Content, u: Setup) {
    u.mode.Daemon? && Sound(s, u) && n in s.conns && s.conns[n].phase.Serving? && Stable(c)
  }

  lemma RunThree(s: State, a: Action, b: Action, d: Action, u: Setup)
    requires Enabled(s, a, u) && Enabled(Do(s, a, u), b, u) && Enabled(Do(Do(s, a, u), b, u), d, u)
    ensures Run(s, [a, b, d], u) && After(s, [a, b, d], u) == Do(Do(Do(s, a, u), b, u), d, u)
  {
    var s1 := Do(s, a, u);
    var s2 := Do(s1, b, u);
    RunFirst(s2, d, [], u);
    RunFirst(s1, b, [d] + [], u);
    RunFirst(s, a, [b] + ([d] + []), u);
    assert [a] + ([b] + ([d] + [])) == [a, b, d];
  }

  /** A clip that is noted and let through, its callback done, with nobody stepping in between. */
  lemma AcceptedSerially(s: State, n: nat, c: Content, from: string, now: int, u: Setup) returns (t: State)
    requires MayReceive(s, n, c, u) && !IsEcho(s.gate, KeyOf(c), now, u.cfg.window)
    ensures var actions := [Handle(n, Receive(c, from, now)), Handle(n, ConsultGate(now)), Handle(n, Callback(true))];
            Run(s, actions, u) && t == After(s, actions, u)
    ensures n in t.conns && t.conns[n] == s.conns[n].(phase := Relaying(c, from, |s.accepts|))
    ensures s.conns[n].id in s.clients
    ensures forall called ::
              View(t, u, called) ==
              PassGate(NoteIncoming(View(s, u, called), s.conns[n].id, KeyOf(c), now), KeyOf(c), now, u.cfg)
  {
    assert s.conns[n].id in s.owner;
    var s1 := Noting(s, n, c, from, now, u);
    var s2 := Passing(s1, n, c, from, now, u);
    t := Do(s2, Handle(n, Callback(true)), u);
    RunThree(s, Handle(n, Receive(c, from, now)), Handle(n, ConsultGate(now)), Handle(n, Callback(true)), u);
  }

  lemma Noting(s: State, n: nat, c: Content, from: string, now: int, u: Setup) returns (t: State)
    requires MayReceive(s, n, c, u) && s.conns[n].id in s.clients
    ensures Enabled(s, Handle(n, Receive(c, from, now)), u) && t == Do(s, Handle(n, Receive(c, from, now)), u)
    ensures n in t.conns && t.conns[n] == s.conns[n].(phase := Noted(c, from))
    ensures t.gate == s.gate && t.accepts == s.accepts && t.peers == s.peers
    ensures t.clients == s.clients[s.conns[n].id := s.clients[s.conns[n].id].(note := Note(KeyOf(c), At(now)))]
  {
    t := Do(s, Handle(n, Receive(c, from, now)), u);
  }

  lemma Passing(s: State, n: nat, c: Content, from: string, now: int, u: Setup) returns (t: State)
    requires n in s.conns && s.conns[n].phase == Noted(c, from) && !IsEcho(s.gate, KeyOf(c), now, u.cfg.window)
    ensures Enabled(s, Handle(n, ConsultGate(now)), u) && t == Do(s, Handle(n, ConsultGate(now)), u)
    ensures n in t.conns && t.conns[n] == s.conns[n].(phase := Accepted(c, from, |s.accepts|))
    ensures t.gate == Arrive(s.gate, KeyOf(c), now, u.cfg.window) && t.clients == s.clients && t.peers == s.peers
  {
    t := Do(s, Handle(n, ConsultGate(now)), u);
  }

  /** The relay that follows leaves the server as `handleClipboard` run on its own would. */
  lemma SerialRelayIsHandleContent(
    s: State, n: nat, c: Content, from: string, now: int, ts: int, called: seq<(Content, string)>, u: Setup)
    requires MayReceive(s, n, c, u) && !IsEcho(s.gate, KeyOf(c), now, u.cfg.window)
    ensures s.conns[n].id in s.clients
    ensures var actions := [Handle(n, Receive(c, from, now)), Handle(n, ConsultGate(now)), Handle(n, Callback(true))];
            Run(s, actions, u) && Enabled(After(s, actions, u), Handle(n, Relay(ts)), u)
            && View(Do(After(s, actions, u), Handle(n, Relay(ts)), u), u, called + [(c, from)])
            == HandleContent(View(s, u, called), s.conns[n].id, c, from, now, ts, u.cfg)
  {
    var t := AcceptedSerially(s, n, c, from, now, u);
    assert s.conns[n].id in s.owner;
    HandleContentSteps(View(s, u, called), View(t, u, called), s.conns[n].id, c, from, now, ts, u.cfg);
  }

  /** A suppressed clip ends at the gate, and that is all `handleClipboard` does with it either. */
  lemma SerialEchoIsHandleContent(
    s: State, n: nat, c: Content, from: string, now: int, ts: int, called: seq<(Content, string)>, u: Setup)
    requires MayReceive(s, n, c, u) && IsEcho(s.gate, KeyOf(c), now, u.cfg.window)
    ensures s.conns[n].id in s.clients
    ensures var actions := [Handle(n, Receive(c, from, now)), Handle(n, ConsultGate(now))];
            Run(s, actions, u) && n in After(s, actions, u).conns && After(s, actions, u).conns[n] == s.conns[n]
            && View(After(s, actions, u), u, called)
            == HandleContent(View(s, u, called), s.conns[n].id, c, from, now, ts, u.cfg)
  {
    assert s.conns[n].id in s.owner;
    var a, b := Handle(n, Receive(c, from, now)), Handle(n, ConsultGate(now));
    var s1 := Noting(s, n, c, from, now, u);
    var t := Do(s1, b, u);
    RunFirst(s1, b, [], u);
    RunFirst(s, a, [b] + [], u);
    assert [a] + ([b] + []) == [a, b];
    HandleContentSteps(View(s, u, called), View(t, u, called), s.conns[n].id, c, from, now, ts, u.cfg);
  }
}
