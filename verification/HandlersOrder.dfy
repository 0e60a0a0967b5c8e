/**
 What every client and peer is written, over every interleaving of handlers, joins and leaves:
 its own selection from one global order of broadcasts, in that order
 (src/internal/websocket/broadcast.go).
 */
module HandlersOrder {
  import opened Prelude
  import opened Codec
  import opened Gates
  import opened ServerSpec
  import opened Handlers
  import Ids

  type Log = seq<Entry>

  predicate Addressed(e: Entry, who: Option<nat>) {
    who.None? || who.value in e.to
  }

  /** The messages of the fan-outs from `lo` on that address a connection (or anyone at all). */
  function Heard(log: Log, lo: nat, who: Option<nat>): seq<ClipboardMsg>
    requires lo <= |log|
    decreases |log|
  {
    if |log| == lo then []
    else
      var e := log[|log| - 1];
      Heard(log[..|log| - 1], lo, who) + if Addressed(e, who) then [e.msg] else []
  }

  /** Their places in the log. */
  function HeardAt(log: Log, lo: nat, who: Option<nat>): seq<nat>
    requires lo <= |log|
    decreases |log|
  {
    if |log| == lo then []
    else HeardAt(log[..|log| - 1], lo, who) + if Addressed(log[|log| - 1], who) then [|log| - 1] else []
  }

  predicate Increasing(xs: seq<nat>) {
    forall i, j :: 0 <= i < j < |xs| ==> xs[i] < xs[j]
  }

  lemma {:induction false} NothingMissed(log: Log, lo: nat, who: Option<nat>, p: nat)
    requires lo <= p < |log| && Addressed(log[p], who)
    ensures p in HeardAt(log, lo, who)
    decreases |log|
  {
    if p < |log| - 1 {
      var init := log[..|log| - 1];
      assert init[p] == log[p];
      NothingMissed(init, lo, who, p);
    }
  }

  lemma {:induction false} HeardInOrder(log: Log, lo: nat, who: Option<nat>)
    requires lo <= |log|
    ensures var at, heard := HeardAt(log, lo, who), Heard(log, lo, who);
            && |at| == |heard| && Increasing(at)
            && forall i :: 0 <= i < |at| ==>
                 lo <= at[i] < |log| && Addressed(log[at[i]], who) && heard[i] == log[at[i]].msg
    decreases |log|
  {
    if |log| > lo {
      HeardInOrder(log[..|log| - 1], lo, who);
    }
  }

  /** What is heard is a duplicate-free selection of the log, in log order, and misses nothing addressed. */
  lemma {:induction false} HeardIsSubsequence(log: Log, lo: nat, who: Option<nat>)
    requires lo <= |log|
    ensures var at, heard := HeardAt(log, lo, who), Heard(log, lo, who);
            && |at| == |heard| && Increasing(at)
            && (forall i :: 0 <= i < |at| ==>
                  lo <= at[i] < |log| && Addressed(log[at[i]], who) && heard[i] == log[at[i]].msg)
            && (forall p :: lo <= p < |log| && Addressed(log[p], who) ==> p in at)
  {
    HeardInOrder(log, lo, who);
    forall p | lo <= p < |log| && Addressed(log[p], who)
      ensures p in HeardAt(log, lo, who)
    {
      NothingMissed(log, lo, who, p);
    }
  }

  /** Any two listeners hear the fan-outs they share in the same order. */
  lemma CommonOrder(log: Log, lo: nat, who: Option<nat>, lo': nat, who': Option<nat>, i: nat, j: nat, k: nat, l: nat)
    requires lo <= |log| && lo' <= |log|
    requires i < |HeardAt(log, lo, who)| && j < |HeardAt(log, lo, who)|
    requires k < |HeardAt(log, lo', who')| && l < |HeardAt(log, lo', who')|
    requires HeardAt(log, lo, who)[i] == HeardAt(log, lo', who')[k]
    requires HeardAt(log, lo, who)[j] == HeardAt(log, lo', who')[l]
    ensures i < j <==> k < l
  {
    HeardIsSubsequence(log, lo, who);
    HeardIsSubsequence(log, lo', who');
  }

  lemma {:induction false} HeardNothing(log: Log, n: nat)
    requires forall p :: 0 <= p < |log| ==> n !in log[p].to
    ensures Heard(log, 0, Some(n)) == []
    decreases |log|
  {
    if log != [] {
      HeardNothing(log[..|log| - 1], n);
    }
  }

  lemma HeardOneMore(log: Log, e: Entry, lo: nat, who: Option<nat>)
    requires lo <= |log|
    ensures Heard(log + [e], lo, who) == Heard(log, lo, who) + if Addressed(e, who) then [e.msg] else []
  {
    assert (log + [e])[..|log|] == log;
  }

  // The invariant

  predicate AddressedJoined(log: Log, conns: Conns) {
    forall p, n :: 0 <= p < |log| && n in log[p].to ==> n in conns && !conns[n].phase.Dialled?
  }

  /** Each client has been written exactly the fan-outs that address its connection. */
  predicate ClientsHear(log: Log, owner: Owners, clients: map<string, ClientView>) {
    forall id :: id in owner ==> id in clients && clients[id].sent == Heard(log, 0, Some(owner[id]))
  }

  /** Each registered peer has been written every fan-out since it registered. */
  predicate PeersHear(log: Log, since: map<nat, nat>, peers: map<nat, PeerView>) {
    forall slot :: slot in peers ==>
      && slot in since && since[slot] <= |log| && peers[slot].connected
      && peers[slot].sent == Heard(log, since[slot], None)
  }

  predicate Ordered(s: State) {
    && AddressedJoined(s.log, s.conns)
    && ClientsHear(s.log, s.owner, s.clients)
    && PeersHear(s.log, s.since, s.peers)
  }

  lemma FanOutClients(s: State, msg: ClipboardMsg, skipped: set<string>, relays: Option<nat>)
    requires TableExact(s.conns, s.owner) && ClientsHear(s.log, s.owner, s.clients)
    ensures var e := Entry(msg, Recipients(s, skipped), relays);
            ClientsHear(s.log + [e], s.owner, WriteAll(s.clients, msg, skipped))
  {
    var e := Entry(msg, Recipients(s, skipped), relays);
    forall id | id in s.owner
      ensures WriteAll(s.clients, msg, skipped)[id].sent == Heard(s.log + [e], 0, Some(s.owner[id]))
    {
      var n := s.owner[id];
      assert Live(s.conns, n) && s.conns[n].id == id;
      assert n in Recipients(s, skipped) <==> id !in skipped;
      HeardOneMore(s.log, e, 0, Some(n));
    }
  }

  lemma FanOutPeers(s: State, msg: ClipboardMsg, e: Entry)
    requires PeersHear(s.log, s.since, s.peers) && e.msg == msg
    ensures PeersHear(s.log + [e], s.since, SendAll(s.peers, msg))
  {
    forall slot | slot in s.peers
      ensures SendTo(s.peers[slot], msg).sent == Heard(s.log + [e], s.since[slot], None)
    {
      HeardOneMore(s.log, e, s.since[slot], None);
    }
  }

  lemma FanOutOrdered(s: State, msg: ClipboardMsg, skipped: set<string>, relays: Option<nat>)
    requires TableExact(s.conns, s.owner) && Ordered(s)
    ensures Ordered(Publish(s, msg, skipped, relays))
  {
    var e := Entry(msg, Recipients(s, skipped), relays);
    FanOutClients(s, msg, skipped, relays);
    FanOutPeers(s, msg, e);
    var t := Publish(s, msg, skipped, relays);
    assert t.log == s.log + [e];
    forall p, n | 0 <= p < |t.log| && n in t.log[p].to
      ensures n in t.conns && !t.conns[n].phase.Dialled?
    {
      if p < |s.log| {
        assert n in s.log[p].to;
      } else {
        assert InTable(s.conns[n].phase);
      }
    }
  }

  lemma MovedStayJoined(log: Log, conns: Conns, n: nat, p: Phase)
    requires AddressedJoined(log, conns) && n in conns && !p.Dialled?
    ensures AddressedJoined(log, conns[n := conns[n].(phase := p)])
  {
  }

  lemma JoinHears(s: State, n: nat)
    requires Ordered(s) && n in s.conns && s.conns[n].phase.Dialled?
    ensures ClientsHear(s.log, s.owner[s.conns[n].id := n], s.clients[s.conns[n].id := ClientView(NO_NOTE, [])])
  {
    HeardNothing(s.log, n);
  }

  lemma EffectOrdered(s: State, n: nat, step: Step, u: Setup)
    requires TableExact(s.conns, s.owner) && Ordered(s) && Enabled(s, Handle(n, step), u)
    ensures Ordered(Effect(s, n, step, u))
  {
    var p, id := s.conns[n].phase, s.conns[n].id;
    match step
    case Register => JoinHears(s, n);
    case Hello(_) =>
    case Hook =>
    case HookBroadcast(now, ts) =>
      var c := u.mode.content;
      FanOutOrdered(s, ContentMsg(c, ts, u.deviceName), Echoers(s.clients, KeyOf(c), now, u.cfg), None);
    case HookClose =>
    case Receive(_, _, _) =>
    case ConsultGate(_) =>
    case Callback(_) =>
    case CloseReceived =>
    case Relay(ts) =>
      FanOutOrdered(s, ContentMsg(p.c, ts, p.from), Origin(id), Some(p.k));
    case Disconnect =>
  }

  lemma HandleOrdered(s: State, n: nat, step: Step, u: Setup)
    requires TableExact(s.conns, s.owner) && Ordered(s) && Enabled(s, Handle(n, step), u)
    ensures Ordered(Do(s, Handle(n, step), u))
  {
    EffectOrdered(s, n, step, u);
    var e, q := Effect(s, n, step, u), Next(s, n, step, u);
    MovedStayJoined(e.log, e.conns, n, q);
  }

  lemma OrderedStep(s: State, a: Action, u: Setup)
    requires Sound(s, u) && Ordered(s) && Enabled(s, a, u)
    ensures Ordered(Do(s, a, u))
  {
    match a
    case Connect => ConnectOrdered(s, u);
    case Handle(n, step) => HandleOrdered(s, n, step, u);
    case Local(c, from, now, ts) =>
      FanOutOrdered(s, ContentMsg(c, ts, from), Echoers(s.clients, KeyOf(c), now, u.cfg), None);
    case PeerUp(slot) =>
      assert Heard(s.log, |s.log|, None) == [];
    case PeerDown(_) =>
  }

  lemma ConnectOrdered(s: State, u: Setup)
    requires Sound(s, u) && Ordered(s) && Enabled(s, Connect, u)
    ensures Ordered(Do(s, Connect, u))
  {
    assert s.seqNo + 1 !in s.conns;
    var t := Do(s, Connect, u);
    assert t.log == s.log && t.owner == s.owner && t.clients == s.clients && t.peers == s.peers && t.since == s.since;
    forall p, n | 0 <= p < |s.log| && n in s.log[p].to
      ensures n in t.conns && !t.conns[n].phase.Dialled?
    {
      assert n in s.conns;
    }
  }

  /** Total-order broadcast: in every reachable state every client and peer has heard its selection of one log. */
  lemma {:induction false} AlwaysOrdered(s: State, actions: seq<Action>, u: Setup)
    requires Sound(s, u) && Ordered(s) && Run(s, actions, u)
    ensures Ordered(After(s, actions, u))
    decreases |actions|
  {
    if actions != [] {
      OrderedStep(s, actions[0], u);
      SoundStep(s, actions[0], u);
      AlwaysOrdered(Do(s, actions[0], u), actions[1..], u);
    }
  }

  lemma OrderedFromStart(actions: seq<Action>, u: Setup)
    requires Run(INITIAL, actions, u)
    ensures Ordered(After(INITIAL, actions, u))
  {
    AlwaysOrdered(INITIAL, actions, u);
  }

  // An accepted clip is relayed once, to everyone else

  predicate Holding(p: Phase) {
    p.Accepted? || p.Checked? || p.Relaying?
  }

  /** Every accepted clip is still with its handler, or was too big, or has its one place in the log. */
  predicate Settled(conns: Conns, accepts: seq<Accept>, relayed: map<nat, nat>, log: Log, cfg: Config) {
    && (forall n :: n in conns && Holding(conns[n].phase) ==>
          var p := conns[n].phase;
          p.k < |accepts| && accepts[p.k] == Accept(n, p.c) && p.k !in relayed)
    && (forall k :: 0 <= k < |accepts| ==>
          var n := accepts[k].n;
          && n in conns
          && ((Holding(conns[n].phase) && conns[n].phase.k == k) || TooBig(accepts[k].c, cfg) || k in relayed))
    && (forall k :: k in relayed ==> k < |accepts| && relayed[k] < |log| && log[relayed[k]].relays == Some(k))
    && (forall p :: 0 <= p < |log| && log[p].relays.Some? ==>
          log[p].relays.value in relayed && relayed[log[p].relays.value] == p)
  }

  predicate AllSettled(s: State, cfg: Config) {
    Settled(s.conns, s.accepts, s.relayed, s.log, cfg)
  }

  lemma MoveSettled(s: State, n: nat, p: Phase, cfg: Config)
    requires AllSettled(s, cfg) && n in s.conns
    requires if Holding(s.conns[n].phase) then Holding(p) && p.k == s.conns[n].phase.k && p.c == s.conns[n].phase.c
             else !Holding(p)
    ensures Settled(s.conns[n := s.conns[n].(phase := p)], s.accepts, s.relayed, s.log, cfg)
  {
  }

  lemma PublishSettled(s: State, msg: ClipboardMsg, skipped: set<string>, cfg: Config)
    requires AllSettled(s, cfg)
    ensures AllSettled(Publish(s, msg, skipped, None), cfg)
  {
    assert Publish(s, msg, skipped, None).log[..|s.log|] == s.log;
  }

  lemma AcceptSettled(s: State, n: nat, c: Content, from: string, cfg: Config)
    requires AllSettled(s, cfg) && n in s.conns && !Holding(s.conns[n].phase)
    ensures Settled(s.conns[n := s.conns[n].(phase := Accepted(c, from, |s.accepts|))],
                    s.accepts + [Accept(n, c)], s.relayed, s.log, cfg)
  {
  }

  lemma RelaySettled(s: State, n: nat, msg: ClipboardMsg, skipped: set<string>, cfg: Config)
    requires AllSettled(s, cfg) && n in s.conns && s.conns[n].phase.Relaying?
    ensures var t := Publish(s, msg, skipped, Some(s.conns[n].phase.k));
            Settled(s.conns[n := s.conns[n].(phase := Serving)], t.accepts, t.relayed, t.log, cfg)
  {
    var t := Publish(s, msg, skipped, Some(s.conns[n].phase.k));
    assert t.log[..|s.log|] == s.log;
  }

  lemma DropSettled(s: State, n: nat, cfg: Config)
    requires AllSettled(s, cfg) && n in s.conns && s.conns[n].phase.Relaying? && TooBig(s.conns[n].phase.c, cfg)
    ensures Settled(s.conns[n := s.conns[n].(phase := Serving)], s.accepts, s.relayed, s.log, cfg)
  {
  }

  lemma HandleSettled(s: State, n: nat, step: Step, u: Setup)
    requires AllSettled(s, u.cfg) && Enabled(s, Handle(n, step), u)
    ensures AllSettled(Do(s, Handle(n, step), u), u.cfg)
  {
    var p, id := s.conns[n].phase, s.conns[n].id;
    match step
    case HookBroadcast(now, ts) =>
      var c := u.mode.content;
      var msg, echoers := ContentMsg(c, ts, u.deviceName), Echoers(s.clients, KeyOf(c), now, u.cfg);
      PublishSettled(s, msg, echoers, u.cfg);
      MoveSettled(Publish(s, msg, echoers, None), n, HookSent, u.cfg);
    case ConsultGate(now) =>
      if IsEcho(s.gate, KeyOf(p.c), now, u.cfg.window) {
        MoveSettled(s, n, Serving, u.cfg);
      } else {
        AcceptSettled(s, n, p.c, p.from, u.cfg);
      }
    case Relay(ts) =>
      if TooBig(p.c, u.cfg) {
        DropSettled(s, n, u.cfg);
      } else {
        RelaySettled(s, n, ContentMsg(p.c, ts, p.from), Origin(id), u.cfg);
      }
    case _ =>
      MoveSettled(s, n, Next(s, n, step, u), u.cfg);
  }

  lemma SettledStep(s: State, a: Action, u: Setup)
    requires Sound(s, u) && AllSettled(s, u.cfg) && Enabled(s, a, u)
    ensures AllSettled(Do(s, a, u), u.cfg)
  {
    match a
    case Connect => assert s.seqNo + 1 !in s.conns;
    case Handle(n, step) => HandleSettled(s, n, step, u);
    case Local(c, from, now, ts) =>
      PublishSettled(s, ContentMsg(c, ts, from), Echoers(s.clients, KeyOf(c), now, u.cfg), u.cfg);
    case PeerUp(_) =>
    case PeerDown(_) =>
  }

  /**
   In every reachable state each accepted clip has at most one place in the log, and exactly one
   once its handler is done with it, unless it was too big.
   */
  lemma {:induction false} AlwaysSettled(s: State, actions: seq<Action>, u: Setup)
    requires Sound(s, u) && AllSettled(s, u.cfg) && Run(s, actions, u)
    ensures AllSettled(After(s, actions, u), u.cfg)
    decreases |actions|
  {
    if actions != [] {
      SettledStep(s, actions[0], u);
      SoundStep(s, actions[0], u);
      AlwaysSettled(Do(s, actions[0], u), actions[1..], u);
    }
  }

  lemma SettledFromStart(actions: seq<Action>, u: Setup)
    requires Run(INITIAL, actions, u)
    ensures AllSettled(After(INITIAL, actions, u), u.cfg)
  {
    AlwaysSettled(INITIAL, actions, u);
  }

  /** The relay of a clip within the image limit reaches every client but its origin, and every peer, once. */
  lemma RelayReachesEveryoneElse(s: State, n: nat, ts: int, u: Setup)
    requires Sound(s, u) && Ordered(s) && Enabled(s, Handle(n, Relay(ts)), u)
    requires !TooBig(s.conns[n].phase.c, u.cfg)
    ensures var p, t := s.conns[n].phase, Do(s, Handle(n, Relay(ts)), u);
            var msg := ContentMsg(p.c, ts, p.from);
            && t.clients.Keys == s.clients.Keys && t.peers.Keys == s.peers.Keys
            && (forall id :: id in s.clients ==>
                  t.clients[id].sent == if s.owner[id] == n then s.clients[id].sent else s.clients[id].sent + [msg])
            && (forall slot :: slot in s.peers ==> t.peers[slot].sent == s.peers[slot].sent + [msg])
  {
    var p, t := s.conns[n].phase, Do(s, Handle(n, Relay(ts)), u);
    var msg := ContentMsg(p.c, ts, p.from);
    assert t.clients == WriteAll(s.clients, msg, Origin(s.conns[n].id)) && t.peers == SendAll(s.peers, msg);
    OnlyOriginSkipped(s, u, n);
  }

  lemma OnlyOriginSkipped(s: State, u: Setup, n: nat)
    requires Sound(s, u) && Live(s.conns, n)
    ensures forall id :: id in s.clients ==> (id in Origin(s.conns[n].id) <==> s.owner[id] == n)
  {
    NonEmptyId(s, u, n);
    forall id | id in s.clients
      ensures id in Origin(s.conns[n].id) <==> s.owner[id] == n
    {
      assert Live(s.conns, s.owner[id]) && s.conns[s.owner[id]].id == id;
    }
  }

  lemma NonEmptyId(s: State, u: Setup, n: nat)
    requires Sound(s, u) && n in s.conns
    ensures s.conns[n].id != ""
  {
    Ids.RoundTrip(n);
  }
}
