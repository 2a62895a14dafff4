# NSB message bridge: a verified model

The bridge lets applications exchange messages over a simulated network. Applications SEND to a daemon,
a simulator client FETCHes from it, carries the message through its simulated network, POSTs it on the far
side, and the destination application RECEIVEs it. The daemon works in one of two system modes: PULL (it
buffers, clients ask) or PUSH (it forwards to the right client at once). Large payloads can travel by claim
check: the payload goes into a Redis store under a generated key, and only the key goes through the daemon.

## How the project is laid out

| file | what it holds |
|---|---|
| `Messages.dfy` | protocol messages, buffer entries, configuration |
| `Buffers.dfy` | the daemon's shared lists, per-class order, and the reference they refine: a log with open positions |
| `Decimals.dfy`, `Keys.dfy` | decimal text, payload keys, their uniqueness |
| `Daemon.dfy` | the daemon: `State` and `Handle` specify it, class `NSBDaemon` is it |
| `DaemonRuns.dfy` | whole runs: registration, replies, order, non-interference, commutation |
| `Clients.dfy` | requests and replies of both client libraries, the store, its connectors, class `NSBClient` |
| `Meaning.dfy` | what single operations do, in terms of messages, lists and tables alone |
| `Bridge.dfy` | clients, daemon and store together: end-to-end order, transparency of the store, in PULL mode |
| `Freshness.dfy` | when the keys of a run are fresh, and what happens when two clients of a node make the same key |
| `PushStore.dfy` | the store in PUSH mode: forwards under way, transparency, and what posts leave behind |
| `Deployment.dfy` | the daemon, store and client objects put together; each operation is a step of the bridge, in both modes |
| `PushPull.dfy` | the two system modes deliver the same messages |
| `Server.dfy` | the server loop over the open channels |
| `Sockets.dfy` | the partial-write loop |
| `Frames.dfy` | the packet format of the OMNeT++ application |
| `HostNames.dfy`, `TcpTransfer.dfy`, `Listener.dfy` | the ns-3 bridge: host names and addresses, chunked transfers, listener thread and queue |

`dafny verify dfyconfig.toml` checks everything.

The daemon, clients, connectors, server and simulator bridges are classes whose methods update their fields
as the code does; each method's contract equates the new state with a function of the old one, and the
results below are lemmas about those functions, over every input, run or interleaving. What the functions
themselves must say is stated apart from them, by positions in lists and fields of messages: `Meaning.dfy`,
and lemmas beside the functions elsewhere.

## Assumptions

- A channel read yields one message (or bytes that do not parse, or the end of the channel), and the daemon's
  replies and forwards are written in full.
- A SEND in PUSH mode finds a registered simulator with a live descriptor: the code dereferences the lookup
  without checking (`CanHandle`). The server loop requires this of every message as it arrives.
- A client operation in PULL mode, request and reply, is one step. In PUSH mode a client reads one forward at a
  time from its own channel, in any interleaving with the others. Clock readings, socket answers, packet
  boundaries and thread interleavings are parameters, and the results hold for all of them.
- SET stores, GETDEL returns and removes. A command may also fail before or after it takes effect, and leaves
  its connector in error, or be answered with an error text; the clients' contracts cover that, while
  `Bridge.dfy`, `Freshness.dfy`, `PushStore.dfy` and `Deployment.dfy` are about runs in which every command succeeds.
- Identifiers contain no zero character: keys reach the store as C strings (`Keys.StoredKeysCollideWhen`).
- ns-3 itself is not part of this model. Its address constructor reads back the text of an address, and what it
  makes of other text is left open. A connection ends at a node that has the address it was made to, if there is
  one, with no end at the subnet's broadcast address; TCP delivers the stream in order. A source whose number is
  no node's is not started: what `NodeList::GetNode` does then is ns-3's affair.

## What turned out not to hold, and exactly when it does

- A unified simulator client in SYSTEM_WIDE mode that names no source sends no metadata, and the daemon then
  never looks at its buffer: such a client obtains nothing, ever (`Clients.UnifiedUnfilteredFetchIsBlind`).
- A unified PER_NODE simulator stays on its own node if and only if its caller names no other source
  (`Clients.UnifiedFetchStaysOnItsNodeWhen`); the classic one always does.
- The two clients of a PER_NODE node share an identifier, as the documentation requires, and each has its own
  counter. They generate the same key, and one payload is delivered under another message's name while the other
  is lost, if and only if they also read the same clock (`Freshness.SharedIdentifiersCollide`, a run from the
  start). Over all runs, no live payload is overwritten if and only if every key is made at another clock reading
  or another counter than each live key of its identifier (`Freshness.SafeRunsAreFresh`);
  `Freshness.KeptApartRunsAreTransparent` gives a condition on the operations alone that covers both clients.
- In PULL mode the store is not transparent for empty payloads (`Bridge.EmptyPayloadsTellSystemsApart`), and a
  message without a destination leaves its payload in the store (`Bridge.EmptyDestinationsLeak`).
- In PUSH mode a post leaves its payload in the store if and only if no application with a descriptor is
  registered under its destination (`PushStore.PostLeaksWhen`, at an input `PushStore.PostToNobodyLeaks`); over
  a run, the store holds the payloads under way and one for each such post (`PushStore.PushStoreIsTransparent`).
- Keys fewer than 2^20 generations apart differ in the store only if the identifier contains no zero character
  (`Keys.StoredKeysCollideWhen`).
- A successful write is a complete write if and only if the message is shorter than 2^31 bytes
  (`Sockets.SendMessage`).
- A simulated transfer completes if and only if its payload is shorter than 2^32 bytes and its socket offers room
  for all of it (`TcpTransfer.TransferCompletesWhen`). Protobuf and Redis carry less than that, so for fetched
  payloads the room alone decides.
- A connection posts all of its data exactly once if and only if nothing arrives after its first close
  (`TcpTransfer.PostedOnceWhen`).
- A frame is faithful if and only if both identifiers are shorter than 65536 bytes (`Frames.FrameIsFaithfulWhen`).
- A message is posted between the hosts it was fetched with if and only if both identifiers are written
  canonically, its source is below `host254` and its destination is a host with an address of its own
  (`TcpTransfer.TripPostsWhatWasFetched`); with at most 254 hosts that is canonical identifiers and an existing
  destination (`TcpTransfer.SmallNetworksDeliverWhen`). The number of hosts is not limited by the program, and
  messages of `host254` and later hosts are never delivered as they were fetched
  (`TcpTransfer.LateHostsAreNotDelivered`, with `host256` among 300 in `TcpTransfer.LateHostExists`).

## Model

| member | source | states |
|---|---|---|
| Daemon.FindIf | cpp/src/nsb_daemon.cc:402-403 | the search returns the first entry that matches, or the end of the list |
| Daemon.NSBDaemon.HandleMessage | cpp/src/nsb_daemon.cc:191-255 | one message changes the daemon as specified and writes exactly the specified messages to the specified descriptors |
| Daemon.NSBDaemon.HandleInit | cpp/src/nsb_daemon.cc:257-308 | registration of applications and simulators by mode, first registration wins, and the reply with the configuration |
| Daemon.NSBDaemon.HandleSend | cpp/src/nsb_daemon.cc:319-391 | PULL buffers the entry at the back, PUSH forwards to the simulator of the mode |
| Daemon.NSBDaemon.HandleFetch | cpp/src/nsb_daemon.cc:393-441 | takes the first entry of the source, or the front, or nothing without metadata; malformed entries are consumed and answered NO_MESSAGE |
| Daemon.NSBDaemon.HandlePost | cpp/src/nsb_daemon.cc:443-517 | PULL buffers a MESSAGE post, PUSH forwards it to the destination if it is registered |
| Daemon.NSBDaemon.HandleReceive | cpp/src/nsb_daemon.cc:519-568 | the same as a fetch, by destination, on the reception buffer |
| Daemon.NSBDaemon.Accept | cpp/src/nsb_daemon.cc:173-175 | the first descriptor bound to an address stays bound |
| Meaning.FetchMeans | cpp/src/nsb_daemon.cc:393-441 | which entry a FETCH takes out, by its position, and every field of the answer, for each kind of request |
| Meaning.ReceiveMeans | cpp/src/nsb_daemon.cc:519-568 | the same for a RECEIVE |
| Meaning.ParcelIsBuffered | cpp/src/nsb_daemon.cc:319-342 | the entry that a SEND or POST adds, field by field, in PULL mode, and that nothing happens in an unknown mode |
| Meaning.ParcelIsForwarded | cpp/src/nsb_daemon.cc:343-390 | in PUSH mode the one wire that carries a message on, to whom, and what it keeps of the message |
| Meaning.InitMeans | cpp/src/nsb_daemon.cc:257-308 | the one answer to an INIT: SUCCESS for applications, PER_NODE simulators and the first simulator, FAILURE for other simulators, with the configuration |
| Meaning.InitRegisters | cpp/src/nsb_daemon.cc:264-288 | what an accepted INIT registers, with the descriptors of the three channels; a later one changes nothing |
| Meaning.OthersMean | cpp/src/nsb_daemon.cc:310-317 | PING is answered SUCCESS, EXIT stops the daemon, INITs without details and unknown operations have no effect |
| Meaning.FetchServesSource | cpp/src/nsb_client.cc:289-355 | for either library, the first entry of the source that the caller or the mode names is obtained and taken out, and nothing if there is none |
| Meaning.FetchServesFront | cpp/src/nsb_client.cc:298-302 | without a source the classic library obtains the front, the unified one nothing |
| Meaning.ReceiveServesDestination | cpp/src/nsb_client.cc:224-279 | the same for the destination named, or the client's own |
| Meaning.SendMeans | cpp/src/nsb_client.cc:197-222 | the entry that `send` adds and what it stores, under a key whose counter has 20 bits |
| Meaning.PostMeans | cpp/rabbit/src/NSBUnified.cpp:672-689 | the same for `post` |
| Meaning.ClientIntroducesItself | cpp/src/nsb_client.cc:27-76 | the INIT that a client writes: its role, its identifier, its addresses |
| Meaning.ClientMessagesAre | cpp/rabbit/src/NSBUnified.cpp:556-689 | the other messages that clients write, with their operation, role and contents |
| Messages.Int32Is | cpp/src/nsb_client.cc:207 | a size is cut to 32 bits, read as a signed number |
| Buffers.EraseAtFirstMatch | cpp/src/nsb_daemon.cc:402-407 | erasing at the first match takes the first entry of the queried class and leaves all others in order |
| Buffers.AnswerIsHead | cpp/src/nsb_daemon.cc:402-415 | the answer to a request is the head of the class it names, whatever else is buffered |
| Buffers.ListRefinesQueues | cpp/src/nsb_daemon.cc:342-415 | the shared list is a family of first-in first-out queues, one for each source or destination |
| Buffers.ListRefinesLedger | cpp/src/nsb_daemon.cc:342-415 | a removal, filtered or not, takes the globally oldest open position that answers it |
| Buffers.RunConserves | cpp/src/nsb_daemon.cc:342-415 | over any run, present plus added equals taken plus left, in order, for every class no request cuts in two |
| Buffers.EachAppendIsTakenOnce | cpp/src/nsb_daemon.cc:342-415 | every appended entry is taken at most once and is otherwise still there |
| Buffers.TakesCommute | cpp/src/nsb_daemon.cc:401-407 | requests for disjoint classes commute: same answers, same list |
| DaemonRuns.RegistrationsAreStable | cpp/src/nsb_daemon.cc:257-291 | no registration and no descriptor binding is ever changed or removed |
| DaemonRuns.RegisteredDescriptorsAreConnections | cpp/include/nsb_daemon.h:75-92 | a client, application or simulator, is registered with the descriptors of its own three connections, each in its place |
| DaemonRuns.SecondSimulatorIsRefused | cpp/src/nsb_daemon.cc:272-280 | SYSTEM_WIDE always has at most one simulator; a later INIT gets FAILURE and changes nothing |
| DaemonRuns.PostsReachFirstRegistration | cpp/src/nsb_daemon.cc:478-513 | every PUSH post goes to the descriptor resolved at the destination's first INIT |
| DaemonRuns.SendsReachFirstRegistration | cpp/src/nsb_daemon.cc:354-361 | every PUSH send goes to the descriptor resolved at the simulator's first INIT; it can be handled exactly when that descriptor was found |
| DaemonRuns.RepliesMatchRequests | cpp/src/nsb_daemon.cc:191-255 | over every run the replies are exactly the requests that need one, in order, on the same descriptor and with the same operation |
| DaemonRuns.PushBuffersStayEmpty | cpp/src/nsb_daemon.cc:343-390 | in PUSH mode both buffers are empty in every reachable state |
| DaemonRuns.PullRunsBuffers | cpp/src/nsb_daemon.cc:319-568 | in PULL mode each buffer evolves by its own operations only |
| DaemonRuns.DeliveriesAreConsumed | cpp/src/nsb_daemon.cc:416-440 | what replies deliver is what the run takes out, less the malformed entries |
| DaemonRuns.SentIsFetchedInOrder | cpp/src/nsb_daemon.cc:319-441 | for one source or pair, sent equals fetched followed by still buffered, in order, over every mix of filtered and unfiltered fetches |
| DaemonRuns.PostedIsReceivedInOrder | cpp/src/nsb_daemon.cc:443-568 | the same for posts and receives, by destination or pair |
| DaemonRuns.EachSentMessageIsTakenOnce | cpp/src/nsb_daemon.cc:398-415 | no sent message reaches two requests, none is lost |
| DaemonRuns.EachPostedMessageIsTakenOnce | cpp/src/nsb_daemon.cc:524-541 | the same for posted messages and receives |
| DaemonRuns.NodesDoNotInterfere | cpp/src/nsb_daemon.cc:393-568 | when every FETCH names its source, a node's answers are those of the run with its own SENDs and FETCHes alone; likewise for RECEIVEs, destinations and POSTs |
| DaemonRuns.UnfilteredFetchInterferes | cpp/src/nsb_daemon.cc:408-414 | the hypothesis is needed: an unfiltered FETCH, or RECEIVE, changes another node's answers |
| DaemonRuns.FetchesCommute | cpp/src/nsb_daemon.cc:401-407 | FETCHes of different sources, and RECEIVEs of different destinations, give the same replies and the same daemon in either order |
| DaemonRuns.FetchCommutesWithSend | cpp/src/nsb_daemon.cc:319-441 | a FETCH commutes with a SEND, and a RECEIVE with a POST, exactly when the message is of another node or something of the asking node is waiting |
| Keys.KeyRoundTrip | cpp/rabbit/src/NSBUnified.cpp:347-352 | clock, identifier and counter can be read back from a key, even when the identifier contains dashes |
| Keys.KeysCollideWhen | cpp/include/nsb.h:329-335 | two keys of one connector are equal exactly when the clock reads the same and the counter went round whole times |
| Keys.KeysDifferWithinWindow | rabbit/nsb_unified.py:387-395 | keys fewer than 2^20 generations apart differ, whatever the clock does |
| Keys.StoredKeysCollideWhen | cpp/rabbit/src/NSBUnified.cpp:361-376 | as C strings, two keys of one connector and clock reading are equal exactly when their counters are or the identifier contains a zero character |
| Keys.ConnectorsNeverShareKeys | rabbit/nsb_unified.py:387-395 | connectors with different identifiers never generate the same key |
| Clients.RedisConnector.GenerateKey | cpp/rabbit/src/NSBUnified.cpp:347-352 | the counter advances and wraps, the key is made of clock, identifier and counter |
| Clients.RedisConnector.StoreValue | cpp/rabbit/src/NSBUnified.cpp:354-370 | the value is stored under the next key; offline, nothing happens; a failed SET returns no key, uses up the counter and may leave the value; one answered with an error returns a key with nothing stored |
| Clients.RedisConnector.CheckOut | cpp/rabbit/src/NSBUnified.cpp:372-383 | the value is returned and removed; empty if absent, offline or failed, removed or not in the last case; the text of an error reply if there is one |
| Clients.NSBClient.Initialize | cpp/src/nsb_client.cc:27-121 | a client succeeds exactly when the daemon registers it and the store, if any, can be reached; it then has the daemon's modes and store settings |
| Clients.NSBClient.Send | cpp/rabbit/src/NSBUnified.cpp:556-572 | the payload is stored if configured, and the daemon gets the message with it or with its key, empty when the store fails |
| Clients.NSBClient.Post | cpp/rabbit/src/NSBUnified.cpp:672-689 | the same, for a post |
| Clients.NSBClient.Fetch | cpp/src/nsb_client.cc:289-355 | asks the daemon in PULL mode, reads a forward otherwise, and unpacks the reply through the store, whatever becomes of the GETDEL |
| Clients.NSBClient.Receive | cpp/src/nsb_client.cc:224-279 | the same, for a receive |
| Clients.NSBClient.Read | cpp/rabbit/src/NSBUnified.cpp:423-428 | the payload of an accepted message is the stored one, which is removed, or the one it carries |
| Clients.ClassicFetchStaysOnItsNode | cpp/src/nsb_client.cc:298-310 | a classic PER_NODE simulator obtains and removes messages of its own node only, whatever source is asked for |
| Clients.UnifiedFetchStaysOnItsNodeWhen | cpp/rabbit/src/NSBUnified.cpp:629-641 | over all stores and PULL states a unified PER_NODE simulator is confined to its node exactly when no other source is asked for |
| Clients.UnifiedUnfilteredFetchIsBlind | cpp/rabbit/src/NSBUnified.cpp:633-641 | without a source in SYSTEM_WIDE mode the unified fetch obtains nothing and the classic one the front of the buffer, with or without the store |
| Bridge.SentIsAccountedFor | cpp/src/nsb_client.cc:197-405 | in every reachable state, sent equals received, then buffered for receipt, then in the network, then buffered for fetch, for each pair in order |
| Bridge.SendsAreReceived | cpp/src/nsb_client.cc:197-405 | the same account, with or without the store, of the messages of the `send` operations and the results of the `receive` operations of a run |
| Bridge.SentIsAccountedForWithStore | cpp/rabbit/src/NSBUnified.cpp:556-689 | the same with the store, reading payloads through it |
| Bridge.StoreIsTransparent | cpp/rabbit/src/NSBUnified.cpp:423-437 | in PULL mode, with fresh keys every operation returns the same with and without the store, and no payload dangles or leaks |
| Bridge.MirrorStep | cpp/rabbit/src/NSBUnified.cpp:354-383 | one operation in PULL mode keeps the correspondence between the system with and without the store |
| Bridge.ClaimKeepsMirror | cpp/rabbit/src/NSBUnified.cpp:372-383 | taking a key out of buffer and store leaves the other payloads alone and the keys in step |
| Freshness.KeyIsTakenWhen | cpp/include/nsb.h:329-335 | the next key is in use exactly when a live key has the same identifier, clock and counter |
| Freshness.SafeRunsAreFresh | cpp/include/nsb.h:329-335 | a PULL run overwrites no live payload exactly when every key it makes differs in clock or counter from the live keys of its identifier |
| Freshness.UnrivalledRunsAreSafe | rabbit/nsb_unified.py:387-395 | that is so when identifiers are distinct and live keys younger than 2^20 generations, whatever the clock does |
| Freshness.KeptApartRunsAreTransparent | cpp/rabbit/src/NSBUnified.cpp:347-437 | in PULL mode, when operations of one identifier differ in clock, or are of one client and fewer than 2^20 apart, every operation returns the same as without the store, nothing dangles or leaks, and order is kept |
| Freshness.SafeRunsAreTransparent | cpp/rabbit/src/NSBUnified.cpp:423-437 | the same for every safe PULL run |
| Freshness.SharedIdentifiersCollide | README.md:335-341 | a PER_NODE run of two nodes with two clients each gives what it gives without the store exactly when the two clients of a node read different clocks |
| Freshness.CrossingDelivers | cpp/rabbit/src/NSBUnified.cpp:347-383 | otherwise one message is fetched with another's payload and the other is received without any |
| PushStore.PushStoreIsTransparent | cpp/src/nsb_daemon.cc:343-516 | in PUSH mode, for all payloads, with fresh keys every operation returns the same with and without the store, no key dangles, and exactly the leaking operations leave a payload behind |
| PushStore.ShippedIsRead | cpp/src/nsb_daemon.cc:343-516 | in PUSH mode every channel is first-in first-out: what is shipped to a descriptor is what is read from it and what waits there, in order |
| PushStore.ReadsFollowShipments | cpp/rabbit/src/NSBUnified.cpp:423-437 | with the store, too, what a client reads is what was shipped to it, from the first message on |
| PushStore.PushMirrorStep | cpp/rabbit/src/NSBUnified.cpp:423-437 | one operation in PUSH mode keeps the correspondence, and leaves a payload behind exactly if it forwards nothing |
| PushStore.PostLeaksWhen | cpp/src/nsb_daemon.cc:478-516 | a post leaves its payload behind exactly when its destination is not registered with a descriptor |
| PushStore.PostToNobodyLeaks | cpp/src/nsb_daemon.cc:478-516 | such a post: nothing is forwarded, and the store keeps the payload |
| PushStore.PushSafeRunsAreFresh | cpp/include/nsb.h:329-335 | a PUSH run overwrites no stored payload exactly when every key it makes differs in clock or counter from the stored keys of its identifier |
| PushStore.PushKeptApartRunsAreTransparent | cpp/rabbit/src/NSBUnified.cpp:347-437 | the PUSH theorem under the same condition on the operations alone |
| Deployment.Deployment.Sends | cpp/rabbit/src/NSBUnified.cpp:556-572 | `send` of any client of a deployment is a SEND step of the bridge, and the other clients stay in step with it |
| Deployment.Deployment.Posts | cpp/rabbit/src/NSBUnified.cpp:672-689 | the same for `post` |
| Deployment.Deployment.Fetches | cpp/src/nsb_client.cc:289-355 | `fetch` is a FETCH step and returns what that returns |
| Deployment.Deployment.Receives | cpp/src/nsb_client.cc:224-279 | `receive` is a RECEIVE step and returns what that returns |
| Deployment.Deployment.Joins | cpp/src/nsb_client.cc:27-121 | a client that initializes is in step with the bridge from then on, in either mode |
| Deployment.Deployment.PushSends | cpp/rabbit/src/NSBUnified.cpp:556-572 | `send` in PUSH mode is a step of the PUSH bridge, forwards included |
| Deployment.Deployment.PushPosts | cpp/rabbit/src/NSBUnified.cpp:672-689 | the same for `post` |
| Deployment.Deployment.PushFetches | cpp/rabbit/src/NSBUnified.cpp:644-669 | `fetch` in PUSH mode reads the next forward on the client's channel |
| Deployment.Deployment.PushReceives | cpp/rabbit/src/NSBUnified.cpp:586-614 | `receive` likewise |
| Bridge.EmptyPayloadsTellSystemsApart | cpp/include/nsb.h:166-168 | a message passes alike with and without the store exactly when its payload is not empty |
| Bridge.EmptyDestinationsLeak | cpp/src/nsb_daemon.cc:410-439 | a fetched message leaves its payload behind exactly when it has no destination |
| PushPull.PushedToSimulator | cpp/src/nsb_daemon.cc:343-390 | PUSH puts on a simulator's channel the sends of its class, in order |
| PushPull.PushedToApplication | cpp/src/nsb_daemon.cc:470-516 | PUSH puts on an application's channel the posts addressed to it, in order |
| PushPull.PollShrinks | cpp/src/nsb_daemon.cc:393-441 | each delivered message shrinks a buffer, so a drain ends |
| PushPull.SimulatorsSeeTheSame | cpp/src/nsb_daemon.cc:343-441 | a simulator drains in PULL mode exactly what PUSH mode writes to its channel, whichever others have drained before it |
| PushPull.DrainsDoNotInterfere | cpp/src/nsb_daemon.cc:398-407 | clients that drain before take nothing of what another client drains |
| PushPull.ClientsAreIndependent | cpp/src/nsb_client.cc:298-310 | clients of different roles or identifiers ask for nothing in common |
| PushPull.ApplicationsSeeTheSame | cpp/src/nsb_daemon.cc:470-568 | the same for an application |
| Server.SocketServer.ServeChannels | cpp/src/nsb_daemon.cc:122-151 | the walk that erases while iterating handles the ready channels in order and keeps exactly those that did not close |
| Server.SocketServer.ServeRound | cpp/src/nsb_daemon.cc:113-179 | a round is the walk, then at most one new connection at the end of the list, or nothing when `select` fails |
| Server.SocketServer.Serve | cpp/src/nsb_daemon.cc:99-180 | all rounds are served, or those up to and including the first one with an EXIT or an error of `select`; the daemon's state and everything written are those of their inputs |
| Server.LoopEndsWithExit | cpp/src/nsb_daemon.cc:99-117 | the loop ends after the first round in which an EXIT arrives or `select` fails, and otherwise goes through all rounds |
| Server.ServedAre | cpp/src/nsb_daemon.cc:122-142 | a walk handles the messages of its ready channels, all of them and no others |
| Server.WalksInOrder | cpp/src/nsb_daemon.cc:122-151 | in the order of the channel list |
| Server.ChannelStaysUnlessClosed | cpp/src/nsb_daemon.cc:126-150 | over any rounds a channel leaves the list only in a round that finds it closed |
| Server.MessagesOfOpenChannelsAreServed | cpp/src/nsb_daemon.cc:126-150 | a client that does not close has every message handled, once, in the round that finds it |
| Server.RoundBindsNewcomer | cpp/src/nsb_daemon.cc:173-177 | a round binds the newcomer's address to its descriptor, unless the address was bound before |
| Server.EachReadyChannelServedOnce | cpp/src/nsb_daemon.cc:122-142 | every open channel with a message is served once in a round, no other descriptor is |
| Server.RoundKeepsChannels | cpp/src/nsb_daemon.cc:143-177 | channels stay distinct: all but those the round found closed, and the newcomer at the end, which may reuse a descriptor just closed |
| Server.EveryRoundServesOnce | cpp/src/nsb_daemon.cc:99-180 | over any rounds the channels stay distinct, and every round serves each open channel with a message once and no other descriptor |
| Server.RunningUntilExit | cpp/src/nsb_daemon.cc:225-229 | the daemon runs until an EXIT and never again after it |
| Sockets.SendMessage | cpp/src/nsb.cc:95-112 | the wire is always a prefix, as long as the calls were ready to take; success, failure and progress characterised for every script of socket answers; complete exactly below 2^31 bytes |
| Frames.WriteFrame | examples/omnet/nsb_omnet_inet/INETAppFiles/nsbBasicApp.cc:166-177 | the bytes written are the frame, each identifier cut to its 16-bit length |
| Frames.ReadFrame | examples/omnet/nsb_omnet_inet/INETAppFiles/nsbAppSink.cc:182-195 | a frame is read as its parts; anything else is read without a payload |
| Frames.FrameRoundTrip | examples/omnet/nsb_omnet_inet/INETAppFiles/nsbAppSink.cc:182-195 | reading a written frame gives the payload and each identifier cut to its length modulo 65536, for all byte strings |
| Frames.FrameLayout | examples/omnet/nsb_omnet_inet/INETAppFiles/nsbBasicApp.cc:166-177 | where each byte of a frame is: lengths in two bytes, low byte first |
| Frames.FrameIsFaithfulWhen | examples/omnet/nsb_omnet_inet/INETAppFiles/nsbBasicApp.cc:168-176 | the message is unchanged exactly when both identifiers are shorter than 65536 |
| Frames.ParsedFramesAreWritten | examples/omnet/nsb_omnet_inet/INETAppFiles/nsbAppSink.cc:182-195 | every packet that parses is the frame of what it parses to |
| TcpTransfer.WriteWhatFits | examples/ns3/nsb-testing-tcp.cc:149-162 | the stream stays the first `bytesSent` bytes of the payload through any partial writes, and grows by all that the socket takes |
| TcpTransfer.CapacityIs | examples/ns3/nsb-testing-tcp.cc:149-162 | what a socket is ready to take is the sum over the turns before the first one without room or with an error |
| TcpTransfer.TransferCompletesWhen | examples/ns3/nsb-testing-tcp.cc:142-171 | over any send callbacks of any sockets a transfer completes exactly when its payload is shorter than 2^32 bytes and its socket was ready to take the rest of it |
| TcpTransfer.TcpBridge.WriteUntilBufferFull | examples/ns3/nsb-testing-tcp.cc:142-171 | a transfer goes on from where it was by as much as fits, or finishes with the whole payload; others are untouched |
| TcpTransfer.TcpBridge.StartTransfer | examples/ns3/nsb-testing-tcp.cc:206-244 | a fetched message gets a transfer, from its source's node to the address of its destination's number, exactly when the source is a node, the destination has a number and the connection comes up |
| TcpTransfer.TcpBridge.TcpReceiveCallback | examples/ns3/nsb-testing-tcp.cc:324-365 | readable packets are appended to what arrived before; the first names the two hosts |
| TcpTransfer.ReadingSplits | examples/ns3/nsb-testing-tcp.cc:328-364 | no byte is lost: what a callback reads and what it leaves is all there was |
| TcpTransfer.ReadingStopsAt | examples/ns3/nsb-testing-tcp.cc:328-329 | a callback reads all packets before the first empty one, or all there are |
| TcpTransfer.TcpBridge.TcpCloseCallback | examples/ns3/nsb-testing-tcp.cc:367-389 | what a connection carried is posted and forgotten; without any, nothing is posted |
| TcpTransfer.ConnectionsDoNotInterfere | examples/ns3/nsb-testing-tcp.cc:324-389 | what is buffered and posted for a connection depends on its own callbacks alone |
| TcpTransfer.PostedOnceWhen | examples/ns3/nsb-testing-tcp.cc:324-389 | over any run a connection that carried data posts it at its first close, and posts all of its data exactly once if and only if nothing arrives after that close |
| TcpTransfer.AllPacketsPostedOnceWhen | examples/ns3/nsb-testing-tcp.cc:324-389 | when no packet is empty, the first close posts the concatenation of all packets before it, and that is everything if and only if no packet comes after it |
| TcpTransfer.RunPostsTheTrip | examples/ns3/nsb-testing-tcp.cc:324-389 | such a run posts what the trip theorem is about |
| TcpTransfer.PiecesAddUp | examples/ns3/nsb-testing-tcp.cc:324-365 | however the bytes are cut into packets and callbacks, the buffer holds them all, between the right hosts |
| TcpTransfer.TripPostsWhatWasFetched | examples/ns3/nsb-testing-tcp.cc:212-389 | for every network, the message posted is the one fetched exactly when both names are canonical, the source is below host 254 and the destination a host with an address of its own |
| TcpTransfer.TravelsInPackets | examples/ns3/nsb-testing-tcp.cc:324-365 | the trip theorem is about every message whose packets, none of them empty, make up its payload |
| TcpTransfer.SmallNetworksDeliverWhen | examples/ns3/nsb-testing-tcp.cc:501-507 | with at most 254 hosts, exactly when both names are canonical and the destination is one of the hosts |
| TcpTransfer.LateHostsAreNotDelivered | examples/ns3/nsb-testing-tcp.cc:334-348 | wherever its connection lands, a message of `host254` or a later host is posted under another name or not at all |
| HostNames.SourceSurvivesWhen | examples/ns3/nsb-testing-tcp.cc:334-348 | a source name survives its node's address and the number read off it exactly when it is canonical and its number at most 254 |
| HostNames.SenderIsLastOctet | examples/ns3/nsb-testing-tcp.cc:334-347 | the last dot of a printed address is found, and the number after it names the sender |
| HostNames.AddressesCanBeRead | examples/ns3/nsb-testing-tcp.cc:212-215 | different addresses are printed differently, so there is a way to read them |
| HostNames.AddressIsRead | examples/ns3/nsb-testing-tcp.cc:502-507 | up to host 254 the prefix and the number make an address of the subnet |
| HostNames.HostNameRoundTripWhen | examples/ns3/nsb-testing-tcp.cc:212-218 | a host name is the name of its own number exactly when it is canonical |
| HostNames.HostsAreWritten | examples/ns3/nsb-testing-tcp.cc:36 | the names and addresses of hosts, spelled out |
| HostNames.IdentifierMeans | examples/ns3/nsb-testing-tcp.cc:206-218 | an identifier names the number after `host`, and a node if there are that many |
| HostNames.StoiReads | examples/ns3/nsb-testing-tcp.cc:213 | spaces, a sign and leading digits are read as a number, if it fits 32 bits; without digits there is none (`HostNames.StoiFails`) |
| HostNames.HostsAreNamed | examples/ns3/nsb-testing-tcp.cc:327-348 | `host0`, `host1` and so on name their own numbers |
| Listener.NothingIsLost | examples/ns3/nsb-testing-tcp.cc:88-114 | under every interleaving, fetched equals processed, then queued, then held |
| Listener.ObtainedIsNotLost | examples/ns3/nsb-testing-tcp.cc:88-114 | under every interleaving, every complete message that the thread's fetches bring is processed, queued or held, once and in order; the fetches are read off the moves alone |
| Listener.MessageListener.ThreadStep | examples/ns3/nsb-testing-tcp.cc:97-105 | one critical section of the listener thread |
| Listener.MessageListener.TakeFront | examples/ns3/nsb-testing-tcp.cc:255-264 | one critical section of the event: the front of the queue is taken |
| Listener.MessageListener.ProcessQueuedMessages | examples/ns3/nsb-testing-tcp.cc:250-318 | the event ends with an empty queue, having processed everything queued at its start first and lost nothing |

## Left out

- RabbitMQ backends and daemons: the broker's routing cannot be seen and bypasses the simulator.
- Sockets, `select`, protobuf encoding, YAML and logging: messages are datatypes, readiness is a parameter.
- Several messages, or part of one, in one channel read: the daemon parses whatever it read as one message.
- Disconnected clients whose address is reused: bindings are never cleaned up, so claims about descriptors are about connections that stay.
- Client timeouts and replies that arrive late: they would let a client read the answer to an earlier request.
- The Python clients: their requests are like those modelled, except that the unified Python fetch sends an empty source; the older Python post puts the payload in the key field without storing it.
- `RedisConnector::store` in cpp/src/nsb.cc passes a C string and cuts payloads at a zero byte; the length-carrying form is modelled.
- Fields left uninitialised by the classic `Config` constructor when the store is off.
- `peek`, `ping` and `exit` on the client side, topology setup, lifecycle handlers and result files.
- PushPull.SimulatorsSeeTheSame: leaves out the unified simulator of SYSTEM_WIDE mode, because its unfiltered fetch obtains nothing (`Clients.UnifiedUnfilteredFetchIsBlind`).
- A client that restarts under the same identifier: its counter begins again, so only the clock keeps its keys apart.
- `host2147483647`: adding one to its number overflows a signed 32-bit integer; the text made from it is no address in any case.
