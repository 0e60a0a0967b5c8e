/**
 The locks each of the program's threads takes, path by path through the source, and the theorem
 that no interleaving of any number of them can hang (src/internal/websocket/broadcast.go,
 client.go, handlers.go, peer.go, server.go, helpers.go, src/internal/clip/watch.go,
 src/internal/cli/commands/send/send.go).
 */
module LockScripts {
  import opened Prelude
  import opened Locks

  /** Who a fan-out finds: its clients, with whether each is passed over, and its peers. */
  datatype Audience = Audience(clients: seq<Recipient>, peers: seq<nat>)

  datatype Recipient = Recipient(id: nat, skipped: bool)

  /** What follows once a message has been read from a client. */
  datatype Message =
    | Answered          // ping, malformed or unknown: one write back
    | Ignored           // pong
    | Undecodable       // a clip without payload
    | Echo              // suppressed by the gate
    | Clip(watched: bool, relay: Option<Audience>)  // written, then relayed unless too big

  /** The connect hook: none, or the one-shot's, which may find `once` done, wait for it, or run. */
  datatype Hook = NoHook | AlreadyDone | WaitsForOther | Delivers(to: Audience)

  datatype Greeting = Gone | Refused | Welcome(hook: Hook, messages: seq<Message>)

  datatype Turn = DialFails | HelloFails | Session(watched: seq<bool>)

  /** What one thread does in its life. */
  datatype Path =
    | Rejected
    | Connection(client: nat, greeting: Greeting)
    | PeerLoop(slot: nat, turns: seq<Turn>)
    | WatcherLoop(checks: seq<Option<Audience>>)
    | ApiSend(to: Audience)
    | ServerAccess  // a setter, or the list of clients

  function Touch(l: Lock): seq<Op> {
    Under(l, [])
  }

  /** `write`, and likewise `noteIncoming` and `recentlySent` */
  function TouchClient(id: nat): seq<Op> {
    Touch(ClientMu(id))
  }

  function WriteEach(clients: seq<Recipient>): seq<Op> {
    if clients == [] then []
    else (if clients[0].skipped then [] else TouchClient(clients[0].id)) + WriteEach(clients[1..])
  }

  function ConsultEach(clients: seq<Recipient>): seq<Op> {
    if clients == [] then []
    else
      var second := if clients[0].skipped then [] else TouchClient(clients[0].id);
      TouchClient(clients[0].id) + second + ConsultEach(clients[1..])
  }

  function SendEach(peers: seq<nat>): seq<Op> {
    if peers == [] then [] else Touch(ConnMu(peers[0])) + SendEach(peers[1..])
  }

  /** `Broadcast` */
  function Broadcast(to: Audience): seq<Op> {
    Under(ServerMu, WriteEach(to.clients) + SendEach(to.peers))
  }

  /** `BroadcastLocal` */
  function BroadcastLocal(to: Audience): seq<Op> {
    Under(ServerMu, ConsultEach(to.clients) + SendEach(to.peers))
  }

  /** `writeRemote`, with or without a watcher. */
  function WriteRemote(watched: bool): seq<Op> {
    if watched then Touch(WatcherMu) else []
  }

  /** `handleClient`'s loop body with `handleClipboard`. */
  function Handle(client: nat, m: Message): seq<Op> {
    match m
    case Answered => TouchClient(client)
    case Ignored => []
    case Undecodable => []
    case Echo => TouchClient(client) + Touch(ServerMu)
    case Clip(watched, relay) =>
      TouchClient(client) + Touch(ServerMu) + WriteRemote(watched)
      + (match relay case Some(to) => Broadcast(to) case None => [])
  }

  function HandleEach(client: nat, messages: seq<Message>): seq<Op> {
    if messages == [] then [] else Handle(client, messages[0]) + HandleEach(client, messages[1..])
  }

  function RunHook(hook: Hook): seq<Op> {
    match hook
    case NoHook => []
    case AlreadyDone => []
    case WaitsForOther => Touch(Once)
    case Delivers(to) => Under(Once, BroadcastLocal(to))
  }

  /** `handleClient` up to its deferred removal. */
  function Greet(client: nat, greeting: Greeting): seq<Op> {
    match greeting
    case Gone => []
    case Refused => TouchClient(client)
    case Welcome(hook, messages) =>
      Touch(ServerMu) + RunHook(hook) + TouchClient(client) + HandleEach(client, messages)
  }

  function Leave(slot: nat): seq<Op> {
    Touch(ConnMu(slot)) + Touch(ServerMu)
  }

  function WriteRemotes(watched: seq<bool>): seq<Op> {
    if watched == [] then [] else WriteRemote(watched[0]) + WriteRemotes(watched[1..])
  }

  /** One turn of the reconnect loop: `conn` set, registered, then closed and unregistered. */
  function Reconnect(slot: nat, turn: Turn): seq<Op> {
    match turn
    case DialFails => []
    case HelloFails => Leave(slot) + Leave(slot)
    case Session(watched) => Leave(slot) + WriteRemotes(watched) + Leave(slot)
  }

  function ReconnectEach(slot: nat, turns: seq<Turn>): seq<Op> {
    if turns == [] then [] else Reconnect(slot, turns[0]) + ReconnectEach(slot, turns[1..])
  }

  /** `check`: the callback runs after the lock is dropped. */
  function CheckEach(checks: seq<Option<Audience>>): seq<Op> {
    if checks == [] then []
    else
      var fired := match checks[0] case Some(to) => BroadcastLocal(to) case None => [];
      Touch(WatcherMu) + fired + CheckEach(checks[1..])
  }

  function Script(p: Path): seq<Op> {
    match p
    case Rejected => Touch(IdMu) + Touch(ServerMu)
    case Connection(client, greeting) =>
      Touch(IdMu) + Touch(ServerMu) + Greet(client, greeting) + Touch(ServerMu)
    case PeerLoop(slot, turns) => ReconnectEach(slot, turns)
    case WatcherLoop(checks) => Touch(WatcherMu) + CheckEach(checks)
    case ApiSend(to) => BroadcastLocal(to)
    case ServerAccess => Touch(ServerMu)
  }

  // Every script respects the order

  lemma TouchKeeps(held: set<Lock>, l: Lock)
    requires Above(held, l)
    ensures Keeps(held, Touch(l))
  {
    UnderKeeps(held, l, []);
  }

  lemma {:induction false} WriteEachKeeps(held: set<Lock>, clients: seq<Recipient>)
    requires forall h :: h in held ==> Rank(h) < TOP
    ensures Keeps(held, WriteEach(clients))
  {
    if clients != [] {
      var first := if clients[0].skipped then [] else TouchClient(clients[0].id);
      TouchKeeps(held, ClientMu(clients[0].id));
      WriteEachKeeps(held, clients[1..]);
      KeepsConcat(held, first, WriteEach(clients[1..]));
    }
  }

  lemma {:induction false} ConsultEachKeeps(held: set<Lock>, clients: seq<Recipient>)
    requires forall h :: h in held ==> Rank(h) < TOP
    ensures Keeps(held, ConsultEach(clients))
  {
    if clients != [] {
      var id := clients[0].id;
      var second := if clients[0].skipped then [] else TouchClient(id);
      TouchKeeps(held, ClientMu(id));
      KeepsConcat(held, TouchClient(id), second);
      ConsultEachKeeps(held, clients[1..]);
      KeepsConcat(held, TouchClient(id) + second, ConsultEach(clients[1..]));
    }
  }

  lemma {:induction false} SendEachKeeps(held: set<Lock>, peers: seq<nat>)
    requires forall h :: h in held ==> Rank(h) < TOP
    ensures Keeps(held, SendEach(peers))
  {
    if peers != [] {
      TouchKeeps(held, ConnMu(peers[0]));
      SendEachKeeps(held, peers[1..]);
      KeepsConcat(held, Touch(ConnMu(peers[0])), SendEach(peers[1..]));
    }
  }

  /** Both fan-outs may be entered holding nothing but the one-shot's `once`. */
  lemma FanOutsKeep(held: set<Lock>, to: Audience)
    requires forall h :: h in held ==> Rank(h) < Rank(ServerMu)
    ensures Keeps(held, Broadcast(to)) && Keeps(held, BroadcastLocal(to))
  {
    var inside := held + {ServerMu};
    WriteEachKeeps(inside, to.clients);
    ConsultEachKeeps(inside, to.clients);
    SendEachKeeps(inside, to.peers);
    KeepsConcat(inside, WriteEach(to.clients), SendEach(to.peers));
    KeepsConcat(inside, ConsultEach(to.clients), SendEach(to.peers));
    UnderKeeps(held, ServerMu, WriteEach(to.clients) + SendEach(to.peers));
    UnderKeeps(held, ServerMu, ConsultEach(to.clients) + SendEach(to.peers));
  }

  lemma HandleKeeps(client: nat, m: Message)
    ensures Keeps({}, Handle(client, m))
  {
    TouchKeeps({}, ClientMu(client));
    TouchKeeps({}, ServerMu);
    TouchKeeps({}, WatcherMu);
    KeepsConcat({}, TouchClient(client), Touch(ServerMu));
    if m.Clip? {
      KeepsConcat({}, TouchClient(client) + Touch(ServerMu), WriteRemote(m.watched));
      var relay := match m.relay case Some(to) => Broadcast(to) case None => [];
      if m.relay.Some? {
        FanOutsKeep({}, m.relay.value);
      }
      KeepsConcat({}, TouchClient(client) + Touch(ServerMu) + WriteRemote(m.watched), relay);
    }
  }

  lemma {:induction false} HandleEachKeeps(client: nat, messages: seq<Message>)
    ensures Keeps({}, HandleEach(client, messages))
  {
    if messages != [] {
      HandleKeeps(client, messages[0]);
      HandleEachKeeps(client, messages[1..]);
      KeepsConcat({}, Handle(client, messages[0]), HandleEach(client, messages[1..]));
    }
  }

  lemma HookKeeps(hook: Hook)
    ensures Keeps({}, RunHook(hook))
  {
    match hook
    case WaitsForOther => TouchKeeps({}, Once);
    case Delivers(to) =>
      FanOutsKeep({} + {Once}, to);
      UnderKeeps({}, Once, BroadcastLocal(to));
    case _ =>
  }

  lemma GreetKeeps(client: nat, greeting: Greeting)
    ensures Keeps({}, Greet(client, greeting))
  {
    TouchKeeps({}, ClientMu(client));
    TouchKeeps({}, ServerMu);
    if greeting.Welcome? {
      var hook, messages := greeting.hook, greeting.messages;
      HookKeeps(hook);
      HandleEachKeeps(client, messages);
      KeepsConcat({}, Touch(ServerMu), RunHook(hook));
      KeepsConcat({}, Touch(ServerMu) + RunHook(hook), TouchClient(client));
      KeepsConcat({}, Touch(ServerMu) + RunHook(hook) + TouchClient(client), HandleEach(client, messages));
    }
  }

  lemma {:induction false} WriteRemotesKeep(watched: seq<bool>)
    ensures Keeps({}, WriteRemotes(watched))
  {
    if watched != [] {
      TouchKeeps({}, WatcherMu);
      WriteRemotesKeep(watched[1..]);
      KeepsConcat({}, WriteRemote(watched[0]), WriteRemotes(watched[1..]));
    }
  }

  lemma {:induction false} ReconnectEachKeeps(slot: nat, turns: seq<Turn>)
    ensures Keeps({}, ReconnectEach(slot, turns))
  {
    if turns != [] {
      TouchKeeps({}, ConnMu(slot));
      TouchKeeps({}, ServerMu);
      KeepsConcat({}, Touch(ConnMu(slot)), Touch(ServerMu));
      KeepsConcat({}, Leave(slot), Leave(slot));
      if turns[0].Session? {
        WriteRemotesKeep(turns[0].watched);
        KeepsConcat({}, Leave(slot), WriteRemotes(turns[0].watched));
        KeepsConcat({}, Leave(slot) + WriteRemotes(turns[0].watched), Leave(slot));
      }
      ReconnectEachKeeps(slot, turns[1..]);
      KeepsConcat({}, Reconnect(slot, turns[0]), ReconnectEach(slot, turns[1..]));
    }
  }

  lemma {:induction false} CheckEachKeeps(checks: seq<Option<Audience>>)
    ensures Keeps({}, CheckEach(checks))
  {
    if checks != [] {
      var fired := match checks[0] case Some(to) => BroadcastLocal(to) case None => [];
      TouchKeeps({}, WatcherMu);
      if checks[0].Some? {
        FanOutsKeep({}, checks[0].value);
      }
      KeepsConcat({}, Touch(WatcherMu), fired);
      CheckEachKeeps(checks[1..]);
      KeepsConcat({}, Touch(WatcherMu) + fired, CheckEach(checks[1..]));
    }
  }

  lemma ScriptKeeps(p: Path)
    ensures Keeps({}, Script(p))
  {
    TouchKeeps({}, IdMu);
    TouchKeeps({}, ServerMu);
    TouchKeeps({}, WatcherMu);
    KeepsConcat({}, Touch(IdMu), Touch(ServerMu));
    match p
    case Rejected =>
    case Connection(client, greeting) =>
      GreetKeeps(client, greeting);
      KeepsConcat({}, Touch(IdMu) + Touch(ServerMu), Greet(client, greeting));
      KeepsConcat({}, Touch(IdMu) + Touch(ServerMu) + Greet(client, greeting), Touch(ServerMu));
    case PeerLoop(slot, turns) => ReconnectEachKeeps(slot, turns);
    case WatcherLoop(checks) =>
      CheckEachKeeps(checks);
      KeepsConcat({}, Touch(WatcherMu), CheckEach(checks));
    case ApiSend(to) => FanOutsKeep({}, to);
    case ServerAccess =>
  }

  function Scripts(paths: seq<Path>): seq<seq<Op>> {
    seq(|paths|, i requires 0 <= i < |paths| => Script(paths[i]))
  }

  /**
   Whatever the threads of the program do and however they interleave: they never wait on each
   other in a ring, somebody can move until all are done, and they can all be brought to the end.
   */
  lemma NoDeadlock(paths: seq<Path>, schedule: seq<nat>) returns (rest: seq<nat>)
    requires Run(Fresh(Scripts(paths)), schedule)
    ensures var s := After(Fresh(Scripts(paths)), schedule);
            && Exclusive(s)
            && (forall ring :: !WaitCycle(s, ring))
            && (Finished(s) <==> forall i :: !Enabled(s, i))
            && Run(s, rest) && Finished(After(s, rest))
  {
    forall i | 0 <= i < |paths|
      ensures Keeps({}, Scripts(paths)[i])
    {
      ScriptKeeps(paths[i]);
    }
    NeverStuck(Scripts(paths), schedule);
    FreshIsSound(Scripts(paths));
    AlwaysSound(Fresh(Scripts(paths)), schedule);
    rest := CanFinish(After(Fresh(Scripts(paths)), schedule));
  }
}
