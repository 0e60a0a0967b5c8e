/**
 The WebSocket server, its clients and its outbound peers as objects updated in place
 (src/internal/websocket/server.go, client.go, broadcast.go, handlers.go, peer.go). A write is
 recorded where it is attempted; whether the connection delivers it is not the server's doing.
 */
module Server {
  import opened Prelude
  import opened Codec
  import opened Gates
  import opened ServerSpec
  import Backoff

  class Client {
    const id: string
    var lastInKey: Key
    var lastInAt: Stamp
    var sent: seq<ClipboardMsg>

    constructor (id: string)
      ensures this.id == id && View() == ClientView(NO_NOTE, [])
    {
      this.id := id;
      lastInKey, lastInAt, sent := NO_KEY, Never, [];
    }

    ghost function View(): ClientView
      reads this
    {
      ClientView(Note(lastInKey, lastInAt), sent)
    }

    method Write(msg: ClipboardMsg)
      modifies this`sent
      ensures View() == WriteTo(old(View()), msg)
    {
      sent := sent + [msg];
    }

    method NoteIncoming(key: Key, now: int)
      modifies this`lastInKey, this`lastInAt
      ensures View() == old(View()).(note := Note(key, At(now)))
    {
      lastInKey := key;
      lastInAt := At(now);
    }

    predicate RecentlySent(key: Key, window: int, now: int)
      reads this
      ensures RecentlySent(key, window, now) == ServerSpec.RecentlySent(View().note, key, now, window)
    {
      lastInKey == key && lastInAt.At? && now - lastInAt.time < window
    }
  }

  /** What one turn of a peer's reconnect loop meets. */
  datatype Dial = Fails | HelloFails | Session(inbox: seq<ClipboardMsg>)

  function Turns(dials: seq<Dial>): (turns: seq<Backoff.Turn>)
    ensures |turns| == |dials|
  {
    seq(|dials|, i requires 0 <= i < |dials| =>
      match dials[i] case Fails => Backoff.DialFails case HelloFails => Backoff.HelloFails case _ => Backoff.Session)
  }

  /** What a session's messages decode to, in order. */
  function Decoded(inbox: seq<ClipboardMsg>): seq<Content> {
    DecodedUpTo(inbox, |inbox|)
  }

  function DecodedUpTo(inbox: seq<ClipboardMsg>, n: nat): seq<Content>
    requires n <= |inbox|
  {
    if n == 0 then []
    else DecodedUpTo(inbox, n - 1) + match MsgToContent(inbox[n - 1]) case Some(c) => [c] case None => []
  }

  function Heard(dial: Dial): seq<Content> {
    match dial case Session(inbox) => Decoded(inbox) case _ => []
  }

  function Inbound(dials: seq<Dial>, n: nat): seq<Content>
    requires n <= |dials|
  {
    if n == 0 then [] else Inbound(dials, n - 1) + Heard(dials[n - 1])
  }

  /** How long the loop waits after turn i; a hello that cannot be written is retried at once. */
  function WaitAfter(
    dials: seq<Dial>, initial: Backoff.Duration, max: Backoff.Duration, i: nat): Option<Backoff.Duration>
    requires i < |dials|
  {
    match dials[i]
    case Fails => Some(Backoff.BackoffAt(Turns(dials), initial, max, i))
    case HelloFails => None
    case Session(_) => Some(initial)
  }

  /** One turn: what it waits and what backoff it leaves. */
  lemma TurnAsPrescribed(dials: seq<Dial>, initial: Backoff.Duration, max: Backoff.Duration, i: nat)
    requires i < |dials|
    ensures var backoff := Backoff.BackoffAt(Turns(dials), initial, max, i);
            && WaitAfter(dials, initial, max, i) ==
               (match dials[i] case Fails => Some(backoff) case HelloFails => None case Session(_) => Some(initial))
            && Backoff.BackoffAt(Turns(dials), initial, max, i + 1) ==
               if dials[i].Fails? then Backoff.Next(backoff, max) else initial
  {
  }

  class PeerClient {
    const slot: nat
    var connected: bool
    var sent: seq<ClipboardMsg>

    /** Calls of `onRemote`, which writes the clipboard and nothing else. */
    var called: seq<Content>

    constructor (slot: nat)
      ensures this.slot == slot && View() == PeerView(false, []) && called == []
    {
      this.slot := slot;
      connected, sent, called := false, [], [];
    }

    ghost function View(): PeerView
      reads this
    {
      PeerView(connected, sent)
    }

    method Send(c: Content, from: string, ts: int)
      modifies this`sent
      ensures View() == SendTo(old(View()), ContentMsg(c, ts, from))
    {
      if !connected {
        return;
      }
      sent := sent + [ContentMsg(c, ts, from)];
    }

    method ReadLoop(inbox: seq<ClipboardMsg>)
      modifies this`called
      ensures called == old(called) + Decoded(inbox)
    {
      for i := 0 to |inbox|
        invariant called == old(called) + DecodedUpTo(inbox, i)
      {
        var c := MsgToContent(inbox[i]);
        if c.Some? {
          called := called + [c.value];
        }
      }
    }

    /** One turn: dial, register, serve, unregister. */
    method Turn(s: Server, dial: Dial, backoff: Backoff.Duration, initial: Backoff.Duration, max: Backoff.Duration)
      returns (next: Backoff.Duration, wait: Option<Backoff.Duration>)
      requires s.Valid() && slot !in s.peers && !connected
      modifies this`connected, this`called, s`peers
      ensures s.Valid() && s.peers == old(s.peers) && !connected
      ensures called == old(called) + Heard(dial)
      ensures next == if dial.Fails? then Backoff.Next(backoff, max) else initial
      ensures wait == match dial case Fails => Some(backoff) case HelloFails => None case Session(_) => Some(initial)
    {
      if dial.Fails? {
        return Backoff.Next(backoff, max), Some(backoff);
      }
      next := initial;
      connected := true;
      s.RegisterPeer(this);
      if dial.HelloFails? {
        wait := None;
      } else {
        ReadLoop(dial.inbox);
        wait := Some(next);
      }
      Close();
      s.UnregisterPeer(this);
    }

    /**
     Dials, serves sessions and waits until the script of dials ends. The waits follow the backoff;
     everything received is handed to the daemon, in order, and relayed to nobody.
     */
    method Run(s: Server, dials: seq<Dial>, initial: Backoff.Duration, max: Backoff.Duration)
      returns (waits: seq<Option<Backoff.Duration>>)
      requires s.Valid() && slot !in s.peers && !connected
      modifies this`connected, this`called, s`peers
      ensures s.Valid() && s.peers == old(s.peers) && !connected
      ensures called == old(called) + Inbound(dials, |dials|)
      ensures |waits| == |dials|
      ensures forall i :: 0 <= i < |dials| ==> waits[i] == WaitAfter(dials, initial, max, i)
    {
      var backoff := initial;
      waits := [];
      for i := 0 to |dials|
        invariant backoff == Backoff.BackoffAt(Turns(dials), initial, max, i)
        invariant s.Valid() && s.peers == old(s.peers) && !connected
        invariant called == old(called) + Inbound(dials, i)
        invariant |waits| == i && forall j :: 0 <= j < i ==> waits[j] == WaitAfter(dials, initial, max, j)
      {
        ConcatAssociates(old(called), Inbound(dials, i), Heard(dials[i]));
        TurnAsPrescribed(dials, initial, max, i);
        var wait;
        backoff, wait := Turn(s, dials[i], backoff, initial, max);
        waits := waits + [wait];
      }
    }

    method Close()
      modifies this`connected
      ensures !connected
    {
      if connected {
        connected := false;
      }
    }
  }

  /** Dealing with one more client leaves one less to skip, unless it is the origin. */
  lemma OneLessSkipped(rest: set<string>, id: string, skipID: string)
    requires id in rest
    ensures (rest - {id}) + Origin(skipID) ==
            if skipID != "" && id == skipID then rest + Origin(skipID) else (rest + Origin(skipID)) - {id}
  {
  }

  class Server {
    const cfg: Config
    var clients: map<string, Client>
    /** Keyed by the peer's place in the configured list. */
    var peers: map<nat, PeerClient>
    var maxClients: int
    var lastBroadcast: Key
    var lastBroadcastT: Stamp
    /** Calls of `onRemoteClip`. */
    var called: seq<(Content, string)>

    ghost predicate Valid()
      reads this
    {
      && (forall id :: id in clients ==> clients[id].id == id)
      && (forall slot :: slot in peers ==> peers[slot].slot == slot)
    }

    ghost function View(): ServerView
      reads this, clients.Values, peers.Values
    {
      ServerView(ClientViews(), PeerViews(), Gate(lastBroadcast, lastBroadcastT), maxClients, called)
    }

    ghost function ClientViews(): map<string, ClientView>
      reads this`clients, clients.Values
    {
      map id | id in clients :: clients[id].View()
    }

    ghost function PeerViews(): map<nat, PeerView>
      reads this`peers, peers.Values
    {
      map slot | slot in peers :: peers[slot].View()
    }

    constructor (cfg: Config)
      ensures Valid() && this.cfg == cfg
      ensures View() == ServerView(map[], map[], CLOSED, 0, [])
    {
      this.cfg := cfg;
      clients, peers := map[], map[];
      maxClients := 0;
      lastBroadcast, lastBroadcastT := NO_KEY, Never;
      called := [];
    }

    method SetMaxClients(n: int)
      requires Valid()
      modifies this`maxClients
      ensures Valid() && View() == old(View()).(maxClients := n)
    {
      maxClients := n;
    }

    /** The table part of `handleWS`: a connection beyond the cap is turned away. */
    method Admit(id: string) returns (c: Client?)
      requires Valid() && id !in clients
      modifies this`clients
      ensures Valid()
      ensures c == null <==> old(0 < maxClients <= |clients|)
      ensures c == null ==> View() == old(View())
      ensures c != null ==> fresh(c) && c.id == id && id in clients && clients[id] == c
                            && View() == old(View()).(clients := old(View()).clients[id := ClientView(NO_NOTE, [])])
    {
      var client := new Client(id);
      if maxClients > 0 && |clients| >= maxClients {
        return null;
      }
      ghost var before := View();
      clients := clients[id := client];
      c := client;
      assert View().clients == before.clients[id := ClientView(NO_NOTE, [])];
    }

    /** The deferred part of `handleClient`. */
    method Dismiss(c: Client)
      requires Valid() && c.id in clients && clients[c.id] == c
      modifies this`clients
      ensures Valid()
      ensures View() == old(View()).(clients := old(View()).clients - {c.id})
    {
      clients := clients - {c.id};
    }

    method RegisterPeer(pc: PeerClient)
      requires Valid()
      modifies this`peers
      ensures Valid() && peers == old(peers)[pc.slot := pc]
    {
      peers := peers[pc.slot := pc];
    }

    method UnregisterPeer(pc: PeerClient)
      requires Valid()
      modifies this`peers
      ensures Valid() && peers == old(peers) - {pc.slot}
    {
      peers := peers - {pc.slot};
    }

    method SendToPeer(slot: nat, c: Content, from: string, ts: int)
      requires Valid() && slot in peers
      modifies peers[slot]
      ensures PeerViews() == old(PeerViews())[slot := SendTo(old(PeerViews())[slot], ContentMsg(c, ts, from))]
      ensures ClientViews() == old(ClientViews())
    {
      peers[slot].Send(c, from, ts);
    }

    method SendToPeers(c: Content, from: string, ts: int)
      requires Valid()
      modifies peers.Values
      ensures PeerViews() == SendAll(old(PeerViews()), ContentMsg(c, ts, from))
      ensures ClientViews() == old(ClientViews())
    {
      ghost var before, clientsBefore, msg := PeerViews(), ClientViews(), ContentMsg(c, ts, from);
      var rest := peers.Keys;
      while rest != {}
        invariant rest <= peers.Keys && ClientViews() == clientsBefore
        invariant PeerViews() == map slot | slot in before ::
                    if slot in rest then before[slot] else SendTo(before[slot], msg)
        decreases |rest|
      {
        var slot :| slot in rest;
        SendToPeer(slot, c, from, ts);
        rest := rest - {slot};
      }
    }

    method WriteUnlessOrigin(id: string, msg: ClipboardMsg, skipID: string) returns (written: bool)
      requires Valid() && id in clients
      modifies clients[id]
      ensures written == !(skipID != "" && id == skipID)
      ensures ClientViews() == if written then old(ClientViews())[id := WriteTo(old(ClientViews())[id], msg)]
                               else old(ClientViews())
      ensures PeerViews() == old(PeerViews())
    {
      written := !(skipID != "" && id == skipID);
      if written {
        clients[id].Write(msg);
      }
    }

    method WriteToOthers(msg: ClipboardMsg, skipID: string)
      requires Valid()
      modifies clients.Values
      ensures ClientViews() == WriteAll(old(ClientViews()), msg, Origin(skipID))
      ensures PeerViews() == old(PeerViews())
    {
      ghost var before, peersBefore := ClientViews(), PeerViews();
      var rest := clients.Keys;
      while rest != {}
        invariant rest <= clients.Keys && PeerViews() == peersBefore
        invariant ClientViews() == WriteAll(before, msg, rest + Origin(skipID))
        decreases |rest|
      {
        var id :| id in rest;
        OneLessSkipped(rest, id, skipID);
        var written := WriteUnlessOrigin(id, msg, skipID);
        if written {
          WriteAllStep(before, msg, rest + Origin(skipID), id);
        }
        rest := rest - {id};
      }
      assert rest + Origin(skipID) == Origin(skipID);
    }

    method WriteUnlessEcho(id: string, msg: ClipboardMsg, key: Key, now: int) returns (written: bool)
      requires Valid() && id in clients
      modifies clients[id]
      ensures written == !ServerSpec.RecentlySent(old(ClientViews())[id].note, key, now, cfg.window)
      ensures ClientViews() == if written then old(ClientViews())[id := WriteTo(old(ClientViews())[id], msg)]
                               else old(ClientViews())
      ensures PeerViews() == old(PeerViews())
    {
      written := !clients[id].RecentlySent(key, cfg.window, now);
      if written {
        clients[id].Write(msg);
      }
    }

    method WriteToNonEchoers(msg: ClipboardMsg, key: Key, now: int)
      requires Valid()
      modifies clients.Values
      ensures ClientViews() == WriteAll(old(ClientViews()), msg, Echoers(old(ClientViews()), key, now, cfg))
      ensures PeerViews() == old(PeerViews())
    {
      ghost var before, peersBefore := ClientViews(), PeerViews();
      ghost var skipped := before.Keys;
      assert WriteAll(before, msg, skipped) == before;
      var rest := clients.Keys;
      while rest != {}
        invariant rest <= clients.Keys && PeerViews() == peersBefore
        invariant rest <= skipped <= before.Keys
        invariant forall id :: id in before && id !in rest ==>
                    (id in skipped <==> ServerSpec.RecentlySent(before[id].note, key, now, cfg.window))
        invariant ClientViews() == WriteAll(before, msg, skipped)
        decreases |rest|
      {
        var id :| id in rest;
        rest := rest - {id};
        var written := WriteUnlessEcho(id, msg, key, now);
        if written {
          WriteAllStep(before, msg, skipped, id);
          skipped := skipped - {id};
        }
      }
      assert skipped == Echoers(before, key, now, cfg);
    }

    method Broadcast(c: Content, from: string, skipID: string, ts: int)
      requires Valid()
      modifies clients.Values, peers.Values
      ensures Valid() && View() == ServerSpec.Broadcast(old(View()), c, from, skipID, ts, cfg)
    {
      if c.Image? && |c.image| > cfg.maxImageBytes {
        return;
      }
      WriteToOthers(ContentMsg(c, ts, from), skipID);
      SendToPeers(c, from, ts);
    }

    method BroadcastLocal(c: Content, from: string, now: int, ts: int)
      requires Valid()
      modifies clients.Values, peers.Values
      ensures Valid() && View() == ServerSpec.BroadcastLocal(old(View()), c, from, now, ts, cfg)
    {
      var key := ContentKey(c);
      WriteToNonEchoers(ContentMsg(c, ts, from), key, now);
      SendToPeers(c, from, ts);
    }

    method Note(from: Client, key: Key, now: int)
      requires Valid() && from.id in clients && clients[from.id] == from
      modifies clients.Values
      ensures Valid() && View() == NoteIncoming(old(View()), from.id, key, now)
    {
      from.NoteIncoming(key, now);
      assert ClientViews() == NoteIncoming(old(View()), from.id, key, now).clients;
    }

    /** The part of `handleClipboard` under `s.mu`. */
    method ConsultGate(key: Key, now: int) returns (isEcho: bool)
      requires Valid()
      modifies this`lastBroadcast, this`lastBroadcastT
      ensures Valid() && isEcho == IsEcho(old(View()).gate, key, now, cfg.window)
      ensures View() == PassGate(old(View()), key, now, cfg)
    {
      isEcho := key == lastBroadcast && lastBroadcastT.At? && now - lastBroadcastT.time < cfg.window;
      if !isEcho {
        lastBroadcast := key;
        lastBroadcastT := At(now);
      }
    }

    method NoteAndConsult(from: Client, key: Key, now: int) returns (isEcho: bool)
      requires Valid() && from.id in clients && clients[from.id] == from
      modifies this`lastBroadcast, this`lastBroadcastT, clients.Values
      ensures Valid() && clients == old(clients) && peers == old(peers)
      ensures isEcho == IsEcho(old(View()).gate, key, now, cfg.window)
      ensures View() == PassGate(NoteIncoming(old(View()), from.id, key, now), key, now, cfg)
    {
      Note(from, key, now);
      isEcho := ConsultGate(key, now);
    }

    method HandleClipboard(from: Client, msg: ClipboardMsg, now: int, ts: int)
      requires Valid() && from.id in clients && clients[from.id] == from
      modifies this`lastBroadcast, this`lastBroadcastT, this`called, clients.Values, peers.Values
      ensures Valid() && View() == ServerSpec.HandleClipboard(old(View()), from.id, msg, now, ts, cfg)
    {
      var content := MsgToContent(msg);
      if content.Some? {
        HandleContent(from, content.value, msg.from, now, ts);
      }
    }

    method HandleContent(from: Client, c: Content, sender: string, now: int, ts: int)
      requires Valid() && from.id in clients && clients[from.id] == from
      modifies this`lastBroadcast, this`lastBroadcastT, this`called, clients.Values, peers.Values
      ensures Valid() && View() == ServerSpec.HandleContent(old(View()), from.id, c, sender, now, ts, cfg)
    {
      ghost var before := View();
      var key := ContentKey(c);
      var isEcho := NoteAndConsult(from, key, now);
      HandleContentSteps(before, View(), from.id, c, sender, now, ts, cfg);
      if !isEcho {
        Relay(from.id, c, sender, ts);
      }
    }

    method Relay(id: string, c: Content, sender: string, ts: int)
      requires Valid()
      modifies this`called, clients.Values, peers.Values
      ensures Valid()
      ensures View() == ServerSpec.Relay(old(View()), id, c, sender, ts, cfg)
    {
      called := called + [(c, sender)];
      assert View() == old(View()).(called := called);
      Broadcast(c, sender, id, ts);
    }
  }
}
