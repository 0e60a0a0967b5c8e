# ClipShare: a verified model

ClipShare shares a clipboard between devices. Every daemon runs a WebSocket server for its clients,
dials other daemons as a client itself, and watches the local clipboard. A clip that arrives from a
client is written to the clipboard and passed on to everyone else; a clip that arrives from a daemon
one has dialled is written and goes no further. What keeps clips from circling for ever is a set of
small memories: the watcher's two hashes, the server's single echo gate, and a note of each client's
last clip, all of them keyed by a 64-bit hash of the content.

This project models those pieces and proves what they add up to. `dafny verify dfyconfig.toml`
checks all of it.

## How it is organised

| file | what it is about |
|---|---|
| `Prelude`, `Fnv`, `Base64`, `Codec` | content, its wire form and its key |
| `Qr`, `Ids`, `Gate`, `Backoff` | the QR envelope, connection ids, the echo gate over time, the reconnect delay |
| `Watcher`, `WatcherRuns` | the watcher as objects, then every interleaving of it with writers and notifications |
| `ServerSpec`, `Server`, `NoBounce` | the server's effect as functions, the server as objects proved against them, and whole serial runs |
| `Handlers`, `HandlersOrder`, `HandlersBounce`, `HandlersModes` | every interleaving of connection handlers in the daemon, `watch` and one-shot set-ups |
| `Network`, `FreshNetwork`, `NetworkLoad` | daemons that dial each other, where they start, and an accounting of what messages can still cost |
| `Flood`, `Coverage`, `FloodReach`, `FloodRuns`, `FloodOutcome`, `SwallowedCopy` | one content in flight: how much work it makes, whom it reaches, that it gets there, and when it does not |
| `DialGraph`, `RelayStops`, `LateLaps` | any contents at any times: relaying dies out exactly on dial graphs without cycles |
| `Locks`, `LockScripts` | lock order and deadlock freedom of all the threads |

The code that updates state in place is modelled by classes whose methods are proved against
functions on values; concurrency is modelled by step machines on values that use the same functions
(`IsEcho`, `Arrive`, `Fires`, `WriteAll`, `SendAll`, `Echoers`, ...). `Handlers.SerialRelayIsHandleContent`
and `Handlers.SerialEchoIsHandleContent` tie the two together: an uninterrupted handler in the machine
does what the object's method does, whether the gate lets the clip through or not.

## What was found

- **Relaying dies out exactly when the dial graph has no cycle** (`RelayStops.RelayDiesOutIffAcyclic`).
  The gate remembers one key, so two contents that chase each other round a cycle of peers are
  relayed for ever, and two sends in a row at one daemon of a fresh network set them off
  (`RelayStops.ChaseStarts`); without a cycle no state, however full, can keep relaying going.
- **Within any one echo window one content makes only so much work, in any graph**
  (`Flood.FloodTermination`): no daemon accepts it twice. That is a bound per window; round a dial
  cycle whose laps outlast the window even one content is relayed without end
  (`LateLaps.WindowIsNeeded`).
- **A flood that loses nothing reaches exactly whom it is let through to**
  (`FloodReach.FloodReachesExactly`): the daemons that dial paths lead to through gates not holding
  the key, those dialling them, and the origin's own clients but for those that sent it the same
  content lately. On a fresh network that is everyone within reach, and it does happen
  (`FloodOutcome.ChangeHappens`).
- **So a copied change can be swallowed.** While what is shut stays shut it gets round in every run
  exactly when its watcher holds the key neither as its last nor as its own and everyone who does not
  hold it yet is reached through what is open (`FloodOutcome.CopyGetsRoundIff`). Copy x here, y there and x here again within the window, and
  the second daemon keeps y with every link up and nothing lost, because its gate still holds x and
  local changes never move a gate (`SwallowedCopy.SecondCopyIsSwallowed`). Two images that share a key
  are one and the same to a watcher, and a content whose key is zero is never reported by a daemon
  that has written nothing yet.
- **"No bounce" holds only up to two exceptions.** Counted from the acceptance of a client's clip, and
  with handlers run one at a time, nothing writes it back within a window
  (`NoBounce.NoBounceWithinWindow`). Counted from the client's own last clip it can come back: a
  repeat refreshes the client's note but not the gate, and a relay consults only the gate
  (`NoBounce.RelayBouncesIff`, again one handler at a time). And handlers do run concurrently: another
  handler that had the same clip accepted earlier and stalled before its relay writes it to the client
  whatever gate and note say. That pending relay is exactly what can bounce an accepted clip
  (`HandlersBounce.BouncesIffPending`), and it is reachable (`HandlersBounce.BounceHappens`).
- **The reconnect delay exceeds its documented maximum** unless that is the initial delay times a
  power of two: the defaults (1s, 30s) wait 32s (`Backoff.WithinMaxIff`, `Backoff.DefaultsExceedMax`;
  `docs/configuration.md:68` calls it the maximum). For a maximum close enough to 2^63 nanoseconds
  the doubling overflows and the wait turns negative (`Backoff.PositiveIff`).
- **A failed clipboard read loses the change that caused it** in event mode: the notification is used
  up and nothing retries (`WatcherRuns.FailedReadLosesWakeup`). Nothing else can lose one: at rest the
  watcher knows the clipboard exactly when reads never fail (`WatcherRuns.KnowsAtRestIff`).
- **The two-step close of `watch` is safe exactly because of the cap of one client**
  (`HandlersModes.CloseOnceSafeIff`); with two clients two clips at once close the channel twice.
- **The key does not separate an image's bytes from its type**, so distinct images can share a key
  by construction (`Codec.KeyIgnoresImageBoundary`); there is no other such case
  (`Codec.SameHashInputIff`).
- **A QR segment that is empty or longer than 65535 bytes does not read back**; everything else does
  (`Qr.RoundTripIff`).
- The documentation says a daemon never rebroadcasts content it wrote itself
  (`docs/configuration.md:281-282`). The code does relay what its clients send, on purpose; the
  promise is true of its watcher, and that is what `WatcherRuns.OwnWritesFromStart` proves.

## Assumptions

Clipboard reads return what was last written. Text is well-formed UTF-8, so JSON carries it
unchanged. Time does not run backwards. Statements about keys are about keys: where two contents
have to be kept apart the statement says so, or is about contents directly.

## Model

| member | source | states |
|---|---|---|
| Fnv.Hasher.Write | src/internal/protocol/codec.go:55-64 | the running hasher absorbs a chunk as the byte-by-byte FNV-1a fold does |
| Fnv.MixWraps | src/internal/protocol/codec.go:55-64 | one round is exclusive-or with the byte, then multiplication modulo 2^64 |
| Fnv.SumSeparates | src/internal/protocol/codec.go:55-64 | the same further bytes keep two hash states equal or apart for ever |
| Fnv.OneByteApart | src/internal/protocol/codec.go:55-64 | inputs that differ in exactly one byte never hash alike |
| Base64.RoundTrip | src/internal/protocol/codec.go:22-36 | image bytes survive base64 both ways, whatever their length |
| Codec.WireRoundTrip | src/internal/protocol/codec.go:14-51 | decoding an encoded clip gives it back with an empty image type defaulted, and is rejected exactly for an empty payload |
| Codec.DecodedIsStable | src/internal/protocol/codec.go:31-51 | whatever any sender's message decodes to passes every further hop unchanged |
| Codec.HopsAgree | src/internal/protocol/codec.go:14-51 | after any series of hops every daemon holds what the first receiver decoded, hence the same key |
| Codec.OriginAgreesIff | src/internal/protocol/codec.go:14-51 | the origin agrees with its receivers exactly when nothing had to be defaulted |
| Codec.ContentKey | src/internal/protocol/codec.go:53-65 | the hasher fed piece by piece computes the one key of the content |
| Codec.TextsOneByteApart | src/internal/protocol/codec.go:53-65 | texts of equal length that differ in one byte never share a key |
| Codec.TextIsNotItsImage | src/internal/protocol/codec.go:56-63 | an image and the text that spells its bytes and type never share a key |
| Codec.SameHashInputIff | src/internal/protocol/codec.go:56-63 | two contents feed the hasher alike exactly when equal, or images that split bytes and type differently |
| Codec.KeyIgnoresImageBoundary | src/internal/protocol/codec.go:56-60 | distinct images that do share a key |
| Qr.AppendSeg | src/internal/certs/qr.go:53-57 | one more segment behind its big-endian 16-bit length, modulo 65536 |
| Qr.Envelope | src/internal/certs/qr.go:25-29 | the three segments of an identity read back exactly when each has 1 to 65535 bytes |
| Qr.Read | src/internal/certs/cert_test.go:65-84 | the reading loop accepts exactly the well-formed envelopes and returns their segments |
| Qr.DecodedReencodes | src/internal/certs/cert_test.go:65-84 | what is read always fits its prefix and spells the whole envelope again, with no trailing bytes |
| Qr.RoundTripIff | src/internal/certs/qr.go:53-57 | an envelope reads back as written exactly when every segment fits |
| Qr.EncodeInjective | src/internal/certs/qr.go:25-29 | for a fixed number of fitting segments no two lists share an envelope |
| Ids.RoundTrip | src/internal/websocket/helpers.go:17 | base-36 printing can be read back |
| Ids.Injective | src/internal/websocket/helpers.go:13-18 | two sequence numbers print alike only if equal |
| Ids.Sequence.NewID | src/internal/websocket/helpers.go:10-18 | until the counter wraps a new id differs from every earlier one |
| Gates.GateRemembers | src/internal/websocket/handlers.go:131-137 | the gate holds the latest accepted clip's key and time; a suppressed echo does not refresh it |
| Gates.SuppressedIff | src/internal/websocket/handlers.go:132-140 | over any trace, a clip is suppressed exactly when it repeats the latest accepted key inside its window |
| Gates.AcceptedSpacing | src/internal/websocket/handlers.go:132-136 | consecutive accepted clips with one key are at least a window apart |
| Gates.RateBound | src/internal/websocket/handlers.go:132-136 | while one key arrives, an interval of length L lets at most floor(L/window)+1 clips through |
| Backoff.DelayFormula | src/internal/websocket/peer.go:66-85 | after n failed dials the wait is initial * 2^min(n,m), m least with initial * 2^m >= max |
| Backoff.DelayBounds | src/internal/websocket/peer.go:79-81 | waits are positive, never shrink in an outage and stay below twice the maximum |
| Backoff.ModerateMaxIsSafe | src/internal/websocket/peer.go:79-81 | no maximum up to 2^62 ns overflows |
| Backoff.PositiveIff | src/internal/websocket/peer.go:79-81 | all waits are positive exactly when the last doubling fits 63 bits |
| Backoff.WithinMaxIff | src/internal/websocket/peer.go:79-81 | all waits are real and at most the configured maximum exactly when that is the initial delay times a power of two |
| Backoff.DefaultsExceedMax | src/internal/config/config.go:237-242 | the default timings wait 32 seconds |
| Backoff.OnlyOutageCounts | src/internal/websocket/peer.go:67-85 | a successful dial starts the delays over |
| Watching.Watcher.constructor | src/internal/clip/watch.go:72-75 | the first snapshot, or zero if the clipboard cannot be read |
| Watching.HashContent | src/internal/clip/watch.go:56-68 | the watcher's own hash is the protocol's key on every content |
| Watching.Watcher.Check | src/internal/clip/watch.go:131-148 | a check remembers what it read and reports it exactly when it is neither a repeat nor the latest own write; a failed read changes nothing |
| Watching.Watcher.LocalWrite | src/internal/clip/watch.go:150-161 | a successful write moves clipboard and both hashes together, a failed one nothing |
| Watching.App.WriteRemote | src/internal/cli/app/app.go:119-135 | remote content reaches the clipboard unless empty, and a watching daemon marks it as its own |
| Watching.Signal.Forward | src/internal/clip/notify_linux.go:73-83 | any burst of events leaves exactly one pending signal |
| Watching.Signal.Receive | src/internal/clip/watch.go:101-105 | receiving empties the slot |
| Watching.WriteThenChecks | src/internal/clip/watch.go:150-161 | after an own write no series of checks reports anything |
| WatcherRuns.TraceRefinement | src/internal/clip/watch.go:131-161 | over every interleaving of checks, writes, notifications and outsiders the reports are the fold over commits that drops repeats and the latest own write, in order |
| WatcherRuns.TraceRefinementFromStart | src/internal/clip/watch.go:72-76 | the same from the initial snapshot |
| WatcherRuns.OwnWritesFromStart | src/internal/clip/watch.go:150-161 | if after the first snapshot the clipboard changes only by local writes nothing is ever reported, however checks race with them |
| WatcherRuns.NoLostWakeup | src/internal/clip/notify_linux.go:133-147 | at rest the watcher knows the clipboard unless its last read failed, and has reported it, written it or started with it |
| WatcherRuns.FailedReadLosesWakeup | src/internal/clip/watch.go:135-140 | from any start, whatever notifications are on their way, any new content can be left unreported at rest by one failed read |
| WatcherRuns.KnowsAtRestIff | src/internal/clip/watch.go:96-148 | every run that comes to rest leaves the watcher knowing the clipboard exactly when reads never fail |
| Server.Client.NoteIncoming | src/internal/websocket/client.go:35-41 | the note is overwritten, what was sent is untouched |
| Server.Client.RecentlySent | src/internal/websocket/client.go:43-48 | true exactly for the noted key inside the window |
| Server.PeerClient.Send | src/internal/websocket/peer.go:153-166 | writes the encoded clip to a connected peer, nothing to a disconnected one |
| Server.PeerClient.ReadLoop | src/internal/websocket/peer.go:113-137 | hands every decodable clip to the daemon in order, and relays none |
| Server.PeerClient.Turn | src/internal/websocket/peer.go:67-110 | one turn registers, serves and unregisters, leaving the peer set as it was |
| Server.PeerClient.Run | src/internal/websocket/peer.go:66-110 | over any series of dials: the clips of all sessions in order, and each wait as the backoff prescribes |
| Server.Server.constructor | src/internal/websocket/server.go:33-43 | an empty server whose gate suppresses nothing |
| Server.Server.SetMaxClients | src/internal/websocket/server.go:57-61 | only the cap changes |
| Server.Server.Admit | src/internal/websocket/handlers.go:29-38 | refused exactly when a positive cap is reached; otherwise registered with a blank note, others untouched |
| Server.Server.Dismiss | src/internal/websocket/handlers.go:44-47 | removes that client's entry and nothing else |
| Server.Server.RegisterPeer | src/internal/websocket/server.go:71-75 | adds that peer and keeps the others |
| Server.Server.UnregisterPeer | src/internal/websocket/server.go:77-81 | removes that peer and keeps the others |
| Server.Server.SendToPeers | src/internal/websocket/broadcast.go:31-33 | every registered peer is sent the clip once |
| Server.Server.WriteToOthers | src/internal/websocket/broadcast.go:23-30 | every client but the origin is written once |
| Server.Server.WriteToNonEchoers | src/internal/websocket/broadcast.go:46-54 | every client is written once unless it sent this key within the window |
| Server.Server.Broadcast | src/internal/websocket/broadcast.go:11-34 | an oversized image goes nowhere; anything else to every client but the origin and to every peer |
| Server.Server.BroadcastLocal | src/internal/websocket/broadcast.go:36-58 | to every peer and every client that did not just send it; the gate and the image limit play no part |
| Server.Server.HandleClipboard | src/internal/websocket/handlers.go:122-145 | an undecodable message changes nothing at all |
| NoBounce.AcceptanceEstablishes | src/internal/websocket/handlers.go:129-144 | accepting a client's clip writes nothing to it and sets gate and note to its key |
| NoBounce.NoBounceWithinWindow | src/internal/websocket/broadcast.go:39-54 | with handlers run one at a time: for one window from the acceptance, and until another key comes, no path writes that key back to the client |
| NoBounce.LocalNeverBounces | src/internal/websocket/client.go:36-48 | the local fan-out skips a client exactly while its own note is fresh |
| NoBounce.RelayBouncesIff | src/internal/websocket/handlers.go:129-144 | with handlers run one at a time: the relay can reach a client inside the window of its own last clip exactly when that was a repeat after the acceptance |
| NoBounce.RepeatOpensTheGap | src/internal/websocket/client.go:36-41 | such a repeat is always possible |
| HandlersBounce.AcceptanceGuards | src/internal/websocket/handlers.go:129-137 | in every reachable state of concurrent handlers, letting a clip through leaves gate and the sender's note holding its key |
| HandlersBounce.ConcurrentNoBounce | src/internal/websocket/handlers.go:122-145 | in every interleaving within the windows, before another key is let through: with no relay of the key pending elsewhere, nothing writes it back to the client |
| HandlersBounce.BouncesIffPending | src/internal/websocket/handlers.go:141-144 | such an interleaving can write an accepted clip back to its sender exactly when another handler has that key still to relay |
| HandlersBounce.BounceHappens | src/internal/websocket/handlers.go:141-144 | from the start, with three clients, a run that gets there and the run that bounces, no time passing and nothing repeated |
| Handlers.SoundFromStart | src/internal/websocket/handlers.go:29-50 | in every reachable state below 2^64 connections table entries match live connections one to one, ids are printed sequence numbers and the cap holds |
| Handlers.TableUpdates | src/internal/websocket/handlers.go:37-66 | no registration overwrites an entry, no departure, by session end or refused hello, removes another's |
| Handlers.SerialRelayIsHandleContent | src/internal/websocket/handlers.go:122-145 | a handler nobody interrupts does with an accepted clip in the step machine what the server object does |
| Handlers.SerialEchoIsHandleContent | src/internal/websocket/handlers.go:130-140 | and likewise with a suppressed one |
| HandlersOrder.HeardIsSubsequence | src/internal/websocket/broadcast.go:13-58 | what a listener hears is a duplicate-free, ordered and complete selection of the log's entries for it |
| HandlersOrder.CommonOrder | src/internal/websocket/broadcast.go:21-22 | two listeners hear the fan-outs they share in the same order |
| HandlersOrder.OrderedFromStart | src/internal/websocket/broadcast.go:13-58 | in every reachable state, through joins, leaves and concurrent handlers, everyone has been written its selection of one global log |
| HandlersOrder.SettledFromStart | src/internal/websocket/handlers.go:130-144 | in every reachable state an accepted clip has at most one place in the log, and exactly one once its handler is done, unless oversized |
| HandlersOrder.RelayReachesEveryoneElse | src/internal/websocket/broadcast.go:23-33 | a relay goes once to every registered client but its origin and once to every registered peer |
| HandlersModes.SoleConnection | src/internal/websocket/handlers.go:30-38 | with a cap of one at most one connection is between registration and removal |
| HandlersModes.AlwaysCloseSafe | src/internal/cli/commands/watch/watch.go:54-76 | with a cap of one the received channel is closed at most once in every run |
| HandlersModes.OtherCapsCloseTwice | src/internal/cli/commands/watch/watch.go:99-105 | with any other cap there is a run that closes it twice |
| HandlersModes.CloseOnceSafeIff | src/internal/cli/commands/watch/watch.go:99-105 | the check-then-close is safe exactly when the cap is one |
| HandlersModes.OneShotExactlyOnce | src/internal/cli/commands/send/send.go:85-93 | never two writes; once the first greeter is through the hook exactly one, to it, with `delivered` closed once |
| NetworkLoad.StepLoad | src/internal/websocket/handlers.go:122-145 | every step pays for itself from the load, except that accepting a clip costs its relay |
| Flood.FloodBound | src/internal/websocket/handlers.go:122-145 | in any dial graph, within one window, the work done is paid for by the start and what was newly copied |
| Flood.FloodTermination | src/internal/websocket/handlers.go:122-145 | at most messages at the start plus daemons times fan-out deliveries, and no daemon accepts twice |
| Flood.FloodSettles | src/internal/websocket/handlers.go:122-145 | counting handler steps and announcements as well, only so many happen |
| Coverage.FloodCoverage | src/internal/websocket/handlers.go:131-144 | at rest every daemon at the end of a dial path through gates open at the start, and every daemon dialling it, holds the content, whatever gates were shut |
| FloodReach.FloodReachesExactly | src/internal/cli/app/app.go:119-135 | at rest, unless a gate opened or a note wore out meanwhile, a daemon holds the content if and only if it held it before, is reachable through open gates, or dials such a daemon or, over a link not muted by its own note, the origin |
| FloodReach.FloodReachesBetween | src/internal/websocket/handlers.go:129-144 | whatever time passes: everyone served through what was open at the start holds the content at rest, and nobody not served through what is open at the end |
| FloodRuns.QuiescentIffStuck | src/internal/websocket/handlers.go:95-120 | the network is at rest exactly when no loss-free step but looking and waiting is left |
| FloodRuns.FloodCompletes | src/internal/websocket/handlers.go:122-145 | from any moment of a loss-free flood inside the window, whatever gates were shut, it can be brought to rest, with everyone on open paths covered and the whole run paid for by the budget at its start |
| FloodOutcome.FloodDelivers | src/internal/websocket/handlers.go:122-145 | from any announcement a loss-free run, with no time passing, ends at rest with exactly the old holders and those served through what is open holding the content |
| FloodOutcome.UnnoticedStays | src/internal/clip/watch.go:141-146 | a copy whose key the watcher already holds causes no delivery at all and stays where it is |
| FloodOutcome.CopyGetsRoundIff | src/internal/clip/watch.go:141-146 | while what is shut stays shut, a copy at a network at rest gets to everyone within reach in every run, and in any, exactly when each holds it already or the watcher takes it for new and open gates and links lead there |
| FloodOutcome.CopyCanGetRoundIff | src/internal/clip/watch.go:141-146 | given time to wait before its watcher looks, a copy can get round exactly when the watcher takes it for new or nobody is left to get it |
| SwallowedCopy.SecondCopyIsSwallowed | src/internal/websocket/broadcast.go:39-58 | from a fresh start, x, y and x again within a window: all links up, nothing lost, and the second daemon keeps y |
| FloodOutcome.ChangeHappens | src/internal/cli/app/app.go:75-93 | on every fresh network: links come up, one daemon's clipboard changes to a new key, its watcher looks, and the change ends up at exactly those it serves |
| DialGraph.AcyclicHasRanks | src/internal/websocket/peer.go:31-40 | without cycles daemons can be ranked so that each dials only lower ones |
| RelayStops.AcyclicBound | src/internal/websocket/peer.go:131-135 | on a ranked graph any run, with any contents at any times, does only the work its start and new copies pay for |
| RelayStops.ChaseStarts | src/internal/websocket/broadcast.go:31-33 | on any fresh network with a dial cycle, linking up and two sends at one daemon set two contents chasing |
| RelayStops.ChaseNeverEnds | src/internal/websocket/handlers.go:131-144 | two contents that chase each other round a cycle are relayed any number of times |
| RelayStops.RelayDiesOutIffAcyclic | src/internal/websocket/handlers.go:131-144 | relaying dies out from every reachable state exactly when the dial graph has no cycle, and then from every state at all |
| LateLaps.WindowIsNeeded | src/internal/websocket/handlers.go:132 | on any fresh network with a cycle one sent text is delivered without bound once laps may outlast the window |
| Locks.NeverStuck | src/internal/websocket/broadcast.go:21-57 | in every interleaving: one holder per lock, no wait cycle, stuck only when all are done |
| Locks.OppositeOrdersHang | src/internal/websocket/broadcast.go:21-33 | two threads that take any two locks in opposite orders can hang |
| LockScripts.FanOutsKeep | src/internal/websocket/broadcast.go:21-57 | both fan-outs go up in rank from `s.mu` to client and peer locks, also under the one-shot's `once` |
| LockScripts.NoDeadlock | src/internal/websocket/handlers.go:82-87 | any number of these threads, interleaved at will, never deadlock and can all finish |

## Left out

- WebSocket, HTTP, TLS, mDNS and UDP transport: links are FIFO queues, connections are phases, a write is recorded where it is attempted.
- JSON, TOML and gzip, certificate issuance and PKCS#12: library behaviour; an envelope is its decoded value.
- Clipboard backends and the Windows notifier, with its `listenerMu`: kept is that a change yields a notification and a read returns what was written.
- Configuration loading, the local HTTP API, status output, installers and command-line parsing; `/send` is a step that calls the local fan-out.
- Token and whitelist checks, hello contents, keepalive pings and error replies: they do not touch clipboard state; LockScripts counts their locks.
- Contexts and cancellation: a run of the model may simply stop.
- Timers: the settle timer may fire at any time, the one-shot's timeouts only end the process; a lock held during a write with a timeout is dropped in the end.
- `Watcher.Track`: the daemon never calls it, and without the clipboard already holding that content it would break the watcher's account.
- One clock reading per operation: a fan-out and a handler's gate use one `now` where the code reads the clock more than once in a row.
- The event and settle loops of the watcher, the read loop of `handleClient` and the `select` statements of the commands: they are steps of the machines instead of loops in methods, since what matters is how they interleave.
- Classes run one call at a time: interleavings are proved on the step machines, which split the handlers where they take or leave `s.mu` and the watcher at the clipboard access.
- The log of acceptances is no part of a daemon: the flood results count it from the moment the flood starts, and `FloodOutcome.RunForgets` shows that nothing depends on what it held before.
- In `Network` a clip is noted and gated in one step, and a link keeps one handler across reconnects; in the code the old connection's handler can still be relaying while the new one is served. `Handlers` has both apart.
- Peers are keyed by their place in the configured list instead of by pointer; the moment between a peer's close and its removal, when `Send` finds no connection, is in `Server.PeerClient` but not in `Handlers`.
- `clientIP`, device names and the order in which Go ranges over maps: the fan-outs are proved for any order.
