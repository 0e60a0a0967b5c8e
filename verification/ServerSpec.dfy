/**
 What the server does to its state, as functions on values: the echo gate, the clients' memories
 and everything written to clients and peers (src/internal/websocket).
 */
module ServerSpec {
  import opened Prelude
  import opened Codec
  import opened Gates

  /** The settings that matter: `EchoWindow` and `MaxImageBytes`. */
  datatype Config = Config(window: int, maxImageBytes: int)

  /** `lastInKey` and `lastInAt` */
  datatype Note = Note(key: Key, at: Stamp)

  const NO_NOTE := Note(NO_KEY, Never)

  /** A registered client: its memory and every clipboard message written to it. */
  datatype ClientView = ClientView(note: Note, sent: seq<ClipboardMsg>)

  /** A registered outbound peer: whether `conn` is set, and every message written to it. */
  datatype PeerView = PeerView(connected: bool, sent: seq<ClipboardMsg>)

  datatype ServerView = ServerView(
    clients: map<string, ClientView>,
    peers: map<nat, PeerView>,
    gate: Gate,
    maxClients: int,
    called: seq<(Content, string)>  // calls of onRemoteClip
  )

  predicate RecentlySent(n: Note, key: Key, now: int, window: int) {
    n.key == key && Within(n.at, now, window)
  }

  predicate TooBig(c: Content, cfg: Config) {
    c.Image? && |c.image| > cfg.maxImageBytes
  }

  function WriteTo(c: ClientView, msg: ClipboardMsg): ClientView {
    c.(sent := c.sent + [msg])
  }

  function SendTo(p: PeerView, msg: ClipboardMsg): PeerView {
    if p.connected then p.(sent := p.sent + [msg]) else p
  }

  function WriteAll(
    clients: map<string, ClientView>, msg: ClipboardMsg, skipped: set<string>): (r: map<string, ClientView>)
    ensures r.Keys == clients.Keys
  {
    map id | id in clients :: if id in skipped then clients[id] else WriteTo(clients[id], msg)
  }

  function SendAll(peers: map<nat, PeerView>, msg: ClipboardMsg): (r: map<nat, PeerView>)
    ensures r.Keys == peers.Keys
  {
    map slot | slot in peers :: SendTo(peers[slot], msg)
  }

  lemma WriteAllStep(clients: map<string, ClientView>, msg: ClipboardMsg, skipped: set<string>, id: string)
    requires id in clients && id in skipped
    ensures WriteAll(clients, msg, skipped)[id := WriteTo(clients[id], msg)] == WriteAll(clients, msg, skipped - {id})
  {
  }

  /** One message to every client outside `skipped` and to every peer. */
  function FanOut(v: ServerView, msg: ClipboardMsg, skipped: set<string>): ServerView {
    v.(clients := WriteAll(v.clients, msg, skipped), peers := SendAll(v.peers, msg))
  }

  function Origin(skipID: string): set<string> {
    if skipID == "" then {} else {skipID}
  }

  function Broadcast(v: ServerView, c: Content, from: string, skipID: string, ts: int, cfg: Config): ServerView {
    if TooBig(c, cfg) then v else FanOut(v, ContentMsg(c, ts, from), Origin(skipID))
  }

  function Echoers(clients: map<string, ClientView>, key: Key, now: int, cfg: Config): set<string> {
    set id | id in clients && RecentlySent(clients[id].note, key, now, cfg.window)
  }

  function BroadcastLocal(v: ServerView, c: Content, from: string, now: int, ts: int, cfg: Config): ServerView {
    FanOut(v, ContentMsg(c, ts, from), Echoers(v.clients, KeyOf(c), now, cfg))
  }

  function NoteIncoming(v: ServerView, id: string, key: Key, now: int): ServerView
    requires id in v.clients
  {
    v.(clients := v.clients[id := v.clients[id].(note := Note(key, At(now)))])
  }

  function PassGate(v: ServerView, key: Key, now: int, cfg: Config): ServerView {
    v.(gate := Arrive(v.gate, key, now, cfg.window))
  }

  /** An accepted clip is handed to the daemon, then sent to everyone but its origin. */
  function Relay(v: ServerView, id: string, c: Content, from: string, ts: int, cfg: Config): ServerView {
    Broadcast(v.(called := v.called + [(c, from)]), c, from, id, ts, cfg)
  }

  /** A clip that arrives at `now`: noted, gated, handed to the daemon and relayed. */
  function HandleContent(
    v: ServerView, id: string, c: Content, from: string, now: int, ts: int, cfg: Config): ServerView
    requires id in v.clients
  {
    var noted := NoteIncoming(v, id, KeyOf(c), now);
    if IsEcho(v.gate, KeyOf(c), now, cfg.window) then noted
    else
      Relay(PassGate(noted, KeyOf(c), now, cfg), id, c, from, ts, cfg)
  }

  /** The same step by step: a suppressed clip leaves the gate as it was. */
  lemma HandleContentSteps(
    v: ServerView, passed: ServerView, id: string, c: Content, from: string, now: int, ts: int, cfg: Config)
    requires id in v.clients && passed == PassGate(NoteIncoming(v, id, KeyOf(c), now), KeyOf(c), now, cfg)
    ensures HandleContent(v, id, c, from, now, ts, cfg) ==
            if IsEcho(v.gate, KeyOf(c), now, cfg.window) then passed else Relay(passed, id, c, from, ts, cfg)
  {
  }

  function HandleClipboard(v: ServerView, id: string, msg: ClipboardMsg, now: int, ts: int, cfg: Config): ServerView
    requires id in v.clients
  {
    match MsgToContent(msg)
    case None => v
    case Some(c) => HandleContent(v, id, c, msg.from, now, ts, cfg)
  }
}
