/**
 When does a client get its own clip back? Whole runs of a server whose handlers run one after
 another (src/internal/websocket/broadcast.go, client.go:36-48, handlers.go:122-145).
 */
module NoBounce {
  import opened Codec
  import opened Gates
  import opened ServerSpec

  datatype Op =
    | Clip(id: string, c: Content, from: string, now: int, ts: int)
    | Local(c: Content, from: string, now: int, ts: int)
    | Join(id: string)
    | Leave(id: string)
    | PeerUp(slot: nat)
    | PeerDown(slot: nat)

  predicate Enabled(v: ServerView, op: Op) {
    match op
    case Clip(id, _, _, _, _) => id in v.clients && id != ""
    case Join(id) => id !in v.clients && id != ""
    case _ => true
  }

  function Do(v: ServerView, op: Op, cfg: Config): ServerView
    requires Enabled(v, op)
  {
    match op
    case Clip(id, c, from, now, ts) => HandleContent(v, id, c, from, now, ts, cfg)
    case Local(c, from, now, ts) => BroadcastLocal(v, c, from, now, ts, cfg)
    case Join(id) => v.(clients := v.clients[id := ClientView(NO_NOTE, [])])
    case Leave(id) => v.(clients := v.clients - {id})
    case PeerUp(slot) => v.(peers := v.peers[slot := PeerView(true, [])])
    case PeerDown(slot) => v.(peers := v.peers - {slot})
  }

  predicate Run(v: ServerView, ops: seq<Op>, cfg: Config)
    decreases |ops|
  {
    ops == [] || (Enabled(v, ops[0]) && Run(Do(v, ops[0], cfg), ops[1..], cfg))
  }

  /** The key the operation would put on the wire, if any. */
  predicate Carries(op: Op, key: Key) {
    (op.Clip? || op.Local?) && KeyOf(op.c) == key
  }

  /** No operation of the run writes a clip with this key to this client. */
  predicate NeverBounces(v: ServerView, ops: seq<Op>, id: string, key: Key, cfg: Config)
    requires Run(v, ops, cfg)
    decreases |ops|
  {
    ops == [] ||
    (var w := Do(v, ops[0], cfg);
     && id in v.clients && id in w.clients
     && (Carries(ops[0], key) ==> w.clients[id].sent == v.clients[id].sent)
     && NeverBounces(w, ops[1..], id, key, cfg))
  }

  /** The client's clip with this key was accepted at `time`, and no other key since. */
  predicate AcceptedFrom(v: ServerView, id: string, key: Key, time: int) {
    && id in v.clients
    && v.gate == Gate(key, At(time))
    && v.clients[id].note.key == key
    && v.clients[id].note.at.At? && v.clients[id].note.at.time >= time
  }

  lemma AcceptanceEstablishes(v: ServerView, id: string, c: Content, from: string, now: int, ts: int, cfg: Config)
    requires id in v.clients && id != "" && !IsEcho(v.gate, KeyOf(c), now, cfg.window)
    ensures var w := HandleContent(v, id, c, from, now, ts, cfg);
            AcceptedFrom(w, id, KeyOf(c), now) && w.clients[id].sent == v.clients[id].sent
  {
  }

  /** Operations within one window of the acceptance, before any clip with another key. */
  predicate WithinWindow(op: Op, id: string, key: Key, time: int, cfg: Config) {
    match op
    case Clip(_, c, _, now, _) => KeyOf(c) == key && time <= now < time + cfg.window
    case Local(_, _, now, _) => time <= now < time + cfg.window
    case Join(other) => other != id
    case Leave(other) => other != id
    case _ => true
  }

  lemma OneStep(v: ServerView, op: Op, id: string, key: Key, time: int, cfg: Config)
    requires Enabled(v, op) && AcceptedFrom(v, id, key, time) && WithinWindow(op, id, key, time, cfg)
    ensures AcceptedFrom(Do(v, op, cfg), id, key, time)
    ensures Carries(op, key) ==> Do(v, op, cfg).clients[id].sent == v.clients[id].sent
  {
  }

  /**
   For one window after a client's clip was accepted, and until a clip with another key arrives,
   neither fan-out writes that key back to the client.
   */
  lemma {:induction false} NoBounceWithinWindow(
    v: ServerView, ops: seq<Op>, id: string, key: Key, time: int, cfg: Config)
    requires Run(v, ops, cfg) && AcceptedFrom(v, id, key, time)
    requires forall i :: 0 <= i < |ops| ==> WithinWindow(ops[i], id, key, time, cfg)
    ensures NeverBounces(v, ops, id, key, cfg)
    decreases |ops|
  {
    if ops != [] {
      assert WithinWindow(ops[0], id, key, time, cfg);
      OneStep(v, ops[0], id, key, time, cfg);
      assert forall i :: 0 <= i < |ops| - 1 ==> ops[1..][i] == ops[i + 1];
      NoBounceWithinWindow(Do(v, ops[0], cfg), ops[1..], id, key, time, cfg);
    }
  }

  /** The local fan-out keeps that promise for as long as the client's own memory lasts. */
  lemma LocalNeverBounces(v: ServerView, id: string, c: Content, from: string, now: int, ts: int, cfg: Config)
    requires id in v.clients
    ensures BroadcastLocal(v, c, from, now, ts, cfg).clients[id].sent == v.clients[id].sent
       <==> RecentlySent(v.clients[id].note, KeyOf(c), now, cfg.window)
  {
  }

  /**
   Still with one handler at a time, the relay does not: it looks at the gate only, which a repeated
   clip does not refresh. Another client's copy of the same clip reaches a client within a window of
   its own last one exactly when that last one was such a repeat.
   */
  lemma RelayBouncesIff(
    v: ServerView, id: string, other: string, c: Content, from: string, ts: int, time: int, cfg: Config)
    requires cfg.window > 0 && !TooBig(c, cfg)
    requires other in v.clients && other != id && other != ""
    requires AcceptedFrom(v, id, KeyOf(c), time)
    ensures (exists now :: v.clients[id].note.at.time <= now
                           && Within(v.clients[id].note.at, now, cfg.window)
                           && HandleContent(v, other, c, from, now, ts, cfg).clients[id].sent != v.clients[id].sent)
       <==> v.clients[id].note.at.time > time
  {
    var last := v.clients[id].note.at.time;
    forall now | last <= now && now - last < cfg.window
      ensures HandleContent(v, other, c, from, now, ts, cfg).clients[id].sent != v.clients[id].sent
         <==> now - time >= cfg.window
    {
    }
    if last > time {
      var now := last + cfg.window - 1;
      assert Within(v.clients[id].note.at, now, cfg.window);
      assert HandleContent(v, other, c, from, now, ts, cfg).clients[id].sent != v.clients[id].sent;
    }
  }

  /** Such a repeat is possible whenever the window is longer than one tick. */
  lemma RepeatOpensTheGap(v: ServerView, id: string, c: Content, from: string, ts: int, time: int, cfg: Config)
    requires cfg.window > 1 && id != "" && AcceptedFrom(v, id, KeyOf(c), time)
    ensures var w := HandleContent(v, id, c, from, time + 1, ts, cfg);
            AcceptedFrom(w, id, KeyOf(c), time) && w.clients[id].note.at.time > time
  {
  }
}
