# Verification of the unisockets core

unisockets lets WebAssembly modules in browsers talk over sockets: a signaling
server hands out addresses and introduces clients to each other, a signaling
client turns its messages into promises, and a transporter carries the data over
WebRTC. This project models that core in Dafny and proves what the pieces promise
together. `dafny verify dfyconfig.toml` checks it.

## What is modelled

- `Address.dfy`: the address codec on text. The server keeps three maps that are
  linked only by printed and re-parsed addresses, so the laws of the codec carry
  everything else. `Wrappers.dfy` holds what all files share.
- `Allocator.dfy`: the nested map from subnet to suffix to ports and its five
  operations, with the sort and the scan for a gap, measured against "least natural
  outside a finite set".
- `Server.dfy`: the server state and its handlers, cut at every `await`. `Start` and
  `Resume` run one segment; `Handle` runs a handler without interruption. What is
  sent is a log for each registration id on each connection.
- `SignalingServer.dfy`: the same server as a class whose methods update its maps in
  place with the loops of the program; each method is tied to the functions above.
- `Atomic.dfy`, `Agreement.dfy`, `Removal.dfy`: runs of uninterrupted handlers. The
  server simulates a specification with a single table, keyed by what addresses mean,
  from which the allocator is computed; shutdowns and closed connections are measured
  exactly.
- `Interleaving.dfy`, `Sending.dfy`, `Addresses.dfy`, `Ownership.dfy`, `Greetings.dfy`:
  the await-level machine, with any number of suspended handlers resumed in any order;
  what each step sends; who holds which port; who is greeted. `Locking.dfy` and
  `Mutexed.dfy` show why an allocator operation may count as one step there: a machine
  with the mutex, in which an operation waits once more between choosing a number and
  writing it and other handlers run meanwhile, is simulated by the await-level one.
- `Client.dfy`, `SignalingClient.dfy`: the promises of bind, shutdown, accept and
  connect, as functions and as a class with listeners and emit loops.
- `Network.dfy`, `Promises.dfy`: any number of clients and the await-level server,
  joined by queues in both directions; clients bind anything, shut aliases down and
  leave. Theorems about what the promises of connect and bind settle with, in every
  run. `Calm.dfy` adds what holds while nothing is removed, `Settling.dfy` what a bind or
  a shutdown call tells about the time after the call.
- `Accepting.dfy`, `Ordering.dfy`: what the listener knows when accept returns, and
  exactly which steps can spoil it.
- `Runs.dfy`, `Forgotten.dfy`: runs of the model from the empty system that show that a
  situation can arise in it: two clients racing for one alias, and the two ways to lose
  an alias before its Accept.
- `TransportState.dfy`, `Candidates.dfy`, `Transporter.dfy`, `Delivery.dfy`: the
  transporter's maps, as functions and as a class; the candidate queue that is
  rewritten while it is being iterated; and delivery through queue, emit, once and
  shift.
- `Sockaddr.dfy`: the socket address codec at the edge of WebAssembly memory, with the
  in-place loop of accept.

## Assumptions

- A knocked subnet is three dot-separated parts without a colon; suffixes and ports are
  naturals. `parseInt` is the longest leading run of decimal digits, otherwise NaN.
- In the agreement theorems a sender's id is registered and a bind names the canonical
  spelling of an alias on the sender's own address. The live-owner theorems need only
  the live sender; the ownership theorems and those about promises need neither.
- A closed connection is one step: the client is forgotten, its address and aliases are
  released, and each remaining client gets the Goodbye followed by the removals. That
  is the order in which the close handler sends when nothing interleaves; the order of
  the aliases is that of the map and is a parameter of the model.
- Suspended handlers are resumed in any order, and requests and closed connections may
  come between any two segments. Promise jobs in JavaScript run first in, first out, and
  most of the awaits wait for no input or output, so the program has fewer orders than
  the model: the theorems over all runs hold for its orders too, while the runs in
  `Runs.dfy` and `Forgotten.dfy` are shown for the model's.
- A client processes a message to its end before the next one. In `Network` a client
  calls bind, shutdown, accept and connect once it is acknowledged and until its
  connection closes, and connects with a fresh connection identifier. Only `Ordering`
  asks that binds name an alias on the client's own address.
- A connection closes under the id it is registered with; requests and messages still
  on their way then are lost.
- Emittery's `once` registers at once and unregisters on the first call; `emit`
  remembers the listeners of the moment and later calls those still registered;
  pending emits are carried out in order. Event keys are modelled as the values they
  are printed from.

## Model

| member | source | states |
|---|---|---|
| Address.IpRoundTrip | pkg/web/signaling/services/signaling-server.ts:637-658 | parsing undoes printing of an IP address exactly for subnets of three parts |
| Address.TcpRoundTrip | pkg/web/signaling/services/signaling-server.ts:643-669 | parsing undoes printing of an alias exactly for well-formed subnets, for every suffix and port |
| Address.TcpInjective | pkg/web/signaling/services/signaling-server.ts:637-647 | distinct triples of subnet, suffix and port print to distinct aliases |
| Address.AliasReadAsIp | pkg/web/signaling/services/signaling-server.ts:113-119 | parseIPAddress applied to a whole alias reads the subnet and suffix of its IP part, as the removal paths rely on |
| Address.ParseDecimal | pkg/web/signaling/services/signaling-server.ts:654-668 | parseInt reads a printed number back, whatever text that is not a digit follows |
| Address.ParsesIff | pkg/web/signaling/services/signaling-server.ts:654-668 | parseInt gives a number, not NaN, exactly for text that starts with a digit |
| Address.DecimalIsNumeral | pkg/web/signaling/services/signaling-server.ts:637-647 | a printed number has no leading zeros, and its digits mean it |
| Address.PrintsBackIff | pkg/web/signaling/services/signaling-server.ts:637-669 | printing what was read from an alias gives the alias back exactly when it is a three-part subnet, a dot, a number, a colon and a number, the numbers without leading zeros |
| Address.IpPrintsBackIff | pkg/web/signaling/services/signaling-server.ts:637-658 | the same for IP addresses |
| Address.ReadPrintedIp | pkg/web/signaling/services/signaling-server.ts:649-658 | whatever follows the suffix, further dots included, is invisible to parseIPAddress |
| Address.ReadPrintedTcp | pkg/web/signaling/services/signaling-server.ts:660-669 | whatever follows the port after another colon is invisible to parseTCPAddress |
| Allocator.ScanFinds | pkg/web/signaling/services/signaling-server.ts:505-511 | on sorted distinct numbers, the first index that does not hold itself is free, and everything below it is taken |
| Allocator.ScanIsLowestFree | pkg/web/signaling/services/signaling-server.ts:537-549 | sort-then-scan gives the least natural absent from any list of distinct naturals, at most the length of the list |
| Allocator.ScanIsFreeIff | pkg/web/signaling/services/signaling-server.ts:537-551 | on any list, duplicates included, sort-then-scan finds the least absent natural iff no number is listed twice before the one below the gap; otherwise it hands out a number that is taken |
| Allocator.CreateIPEffect | pkg/web/signaling/services/signaling-server.ts:490-525 | a knock is refused with "-1" iff all of 0 to 255 are taken; otherwise it gets the least free suffix, a fresh member without ports, and nothing else changes |
| Allocator.CreateTCPEffect | pkg/web/signaling/services/signaling-server.ts:527-563 | a created port is free, least, at most the number of ports held; exactly one claim is added; the printed alias reads back |
| Allocator.CreateTCPFails | pkg/web/signaling/services/signaling-server.ts:535-559 | a port is created iff the id names a member; the error says whether the subnet or the suffix is missing |
| Allocator.ClaimTCPEffect | pkg/web/signaling/services/signaling-server.ts:565-595 | a claim adds exactly the port named, possibly with its member, and fails only if the port is taken or the subnet unknown |
| Allocator.RemoveIPEffect | pkg/web/signaling/services/signaling-server.ts:597-613 | removing an address drops its member and every port claimed on it, and no other |
| Allocator.RemoveTCPEffect | pkg/web/signaling/services/signaling-server.ts:615-635 | releasing an alias drops exactly its port and keeps the lists free of duplicates |
| SignalingServer.SortNumbers | pkg/web/signaling/services/signaling-server.ts:500-502 | the sort as a loop computes the sorted permutation the theorems are about |
| SignalingServer.FirstGap | pkg/web/signaling/services/signaling-server.ts:505-511 | of all indices reported by the loop only the first counts |
| SignalingServer.SignalingServer.CreateIPAddress | pkg/web/signaling/services/signaling-server.ts:490-525 | in place: the new map and the address are those of the least free suffix, or the refusal |
| SignalingServer.SignalingServer.CreateTCPAddress | pkg/web/signaling/services/signaling-server.ts:527-563 | in place: sorted ports plus the least free one, or the error with the map untouched |
| SignalingServer.SignalingServer.ClaimTCPAddress | pkg/web/signaling/services/signaling-server.ts:565-595 | in place: the port is appended, or the error is returned with the map untouched |
| SignalingServer.SignalingServer.RemoveIPAddress | pkg/web/signaling/services/signaling-server.ts:597-613 | in place: the member is gone, anything unreadable is ignored |
| SignalingServer.SignalingServer.RemoveTCPAddress | pkg/web/signaling/services/signaling-server.ts:615-635 | in place: the port is filtered out, anything unreadable is ignored |
| SignalingServer.SignalingServer.SendToAll | pkg/web/signaling/services/signaling-server.ts:334-341 | the broadcast loop sends one copy to each registered client, in whatever order it visits them |
| SignalingServer.SignalingServer.Greet | pkg/web/signaling/services/signaling-server.ts:251-266 | the greeting loop sends each client but the new one its own greeting |
| SignalingServer.SignalingServer.HandleKnock | pkg/web/signaling/services/signaling-server.ts:233-272 | the method ends in the state in which the segmented handler, run to its end, leaves the server |
| SignalingServer.SignalingServer.HandleBind | pkg/web/signaling/services/signaling-server.ts:315-343 | for bind it ends in that state and with that error, refusals and thrown errors included |
| SignalingServer.SignalingServer.HandleAccepting | pkg/web/signaling/services/signaling-server.ts:345-358 | the alias accepts from now on iff the sender owns it |
| SignalingServer.SignalingServer.HandleShutdown | pkg/web/signaling/services/signaling-server.ts:360-394 | for shutdown it ends in the state and with the error of the segmented handler |
| SignalingServer.SignalingServer.HandleConnect | pkg/web/signaling/services/signaling-server.ts:396-485 | for connect it ends in the state and with the error of the segmented handler, in all its ways to fail |
| SignalingServer.SignalingServer.HandleClose | pkg/web/signaling/services/signaling-server.ts:105-134 | the close handler's loops give the disconnect step the run theorems use, for an order that lists the owned aliases once each |
| Locking.StillFree | pkg/web/signaling/services/signaling-server.ts:500-551 | the number chosen before the inner await is still the least free one at the write |
| Locking.WriteIsAtomic | pkg/web/signaling/services/signaling-server.ts:517-553 | the write completes exactly the atomic operation on what the holder of the lock found |
| Locking.RefinesAtomic | pkg/web/signaling/services/signaling-server.ts:488-634 | in every run, with any number of operations under way, the visible allocator is the completed operations run atomically in order with the outcomes they had, and no port list ever holds a duplicate |
| Mutexed.ResumeIsOperation | pkg/web/signaling/services/signaling-server.ts:233-410 | a handler's segment is its allocator operation, followed by what the handler does with the outcome |
| Mutexed.ResumeElsewhere | pkg/web/signaling/services/signaling-server.ts:315-485 | segments without an operation neither read nor change the allocator, so they cannot see one that is half done |
| Mutexed.SimulatesAwaits | pkg/web/signaling/services/signaling-server.ts:488-634 | every run with the mutex, handlers and half-done operations interleaved at every await, is seen as a run of the await-level machine with the same events in the same order, and ends as it does |
| Addresses.OrderlyStep | pkg/web/signaling/services/signaling-server.ts:488-635 | every step of every interleaving, shutdowns and closed connections included, keeps port lists free of duplicates and subnets well-formed |
| Addresses.HomeStep | pkg/web/signaling/services/signaling-server.ts:315-485 | while binds name the sender's own address, every registered alias, and every alias a suspended handler works on, is on its owner's address |
| Ownership.ExactlyOneHolder | pkg/web/signaling/services/signaling-server.ts:315-343 | in every interleaving without removals a port is claimed iff it has a holder, a registered alias or a handler between claim and publish or release, and then exactly one |
| Ownership.SetNeverOverwrites | pkg/web/signaling/services/signaling-server.ts:330-332 | publishing an alias never overwrites one, even when several binds of it passed the check together |
| Ownership.RefusalReleasesItsOwn | pkg/web/signaling/services/signaling-server.ts:402-410 | a refused connect releases the port it created and nobody else's, whatever ran in between, and touches no alias |
| Greetings.IdsAreUnique | pkg/web/signaling/services/signaling-server.ts:233-269 | in every run without shutdowns, no two clients or knocks under way share an id |
| Greetings.StepGreetings | pkg/web/signaling/services/signaling-server.ts:251-266 | only the step that registers a client sends a greeting that names it as the answerer: one, to each client registered before |
| Greetings.PairwiseGreeting | pkg/web/signaling/services/signaling-server.ts:251-268 | any two clients registered at the same time have exactly one greeting between them since the later registered, sent to the earlier as the offerer |
| Greetings.GreetingTotal | pkg/web/signaling/services/signaling-server.ts:251-268 | n accepted knocks and nothing removed, binds of any alias included: n clients, and n(n-1)/2 greetings in the mail of all peers together |
| Atomic.KnockRuns | pkg/web/signaling/services/signaling-server.ts:233-269 | an uninterrupted knock in closed form: the acknowledgement with its flag, then the greetings and the registration unless it was refused |
| Atomic.BindRuns | pkg/web/signaling/services/signaling-server.ts:315-343 | an uninterrupted bind in closed form: the refusal to its sender, the error of the claim, or the registration and its broadcast |
| Atomic.ShutdownRuns | pkg/web/signaling/services/signaling-server.ts:360-394 | an uninterrupted shutdown in closed form: alias, port and address are gone and everybody is told, or the refusal to its sender |
| Atomic.ConnectThrowsIff | pkg/web/signaling/services/signaling-server.ts:396-485 | for every server state exactly when a connect throws, what it throws, and what it leaves: a grant that fails leaves its alias registered and its port claimed |
| Atomic.ThrowsIff | pkg/web/signaling/services/signaling-server.ts:233-485 | exactly when a handler resumed after an await throws, and what: among others when the remote alias of a connect has gone between two awaits |
| Atomic.RefusedConnectIsNeutral | pkg/web/signaling/services/signaling-server.ts:399-420 | a refused connect leaves registry, members and claims as they were, sends only the refusal, and the next connect is offered the same port |
| Atomic.AcceptanceRuns | pkg/web/signaling/services/signaling-server.ts:421-484 | an accepted connect registers the created alias for the caller and sends four messages, in order, to the caller and the listener |
| Agreement.Simulates | pkg/web/signaling/services/signaling-server.ts:233-485 | one fair step does not throw and keeps the server in agreement with the one-table specification, messages included |
| Agreement.RunSimulates | pkg/web/signaling/services/signaling-server.ts:105-485 | over every fair run, closed connections included, the server simulates the one table message for message |
| Agreement.NothingThrows | pkg/web/signaling/services/signaling-server.ts:535-591 | in a fair run no claim or create fails and no recipient is missing |
| Agreement.RegistryAgrees | pkg/web/signaling/services/signaling-server.ts:30-32 | a member exists iff its client is connected; its ports are, without duplicates, exactly those of the registered aliases on its address, each owned by that client |
| Agreement.OwnerConnected | pkg/web/signaling/services/signaling-server.ts:332-332 | every alias of a fair run is owned by a connected client |
| Agreement.NothingRemains | pkg/web/signaling/services/signaling-server.ts:111-127 | when all clients have left, no alias and no member remains |
| Removal.OwnersAlwaysLive | pkg/web/signaling/services/signaling-server.ts:332-444 | in every run, shutdowns and foreign binds included, every registered alias is owned by a connected client |
| Removal.ConnectFindsListener | pkg/web/signaling/services/signaling-server.ts:443-452 | so an accepted connect never lacks its listener's connection |
| Removal.DisconnectOwned | pkg/web/signaling/services/signaling-server.ts:115-119 | a closed connection removes exactly the aliases its id owned |
| Removal.DisconnectFrees | pkg/web/signaling/services/signaling-server.ts:111-119 | a closed connection frees its own address and the address and port of every alias its id owned, foreign addresses included, and nothing else |
| Removal.DisconnectAnnounces | pkg/web/signaling/services/signaling-server.ts:121-131 | each remaining client gets the Goodbye, then one removal for each alias owned by the closed id, in the order of the map, and none for any other; nobody else gets anything |
| Removal.ShutdownEffect | pkg/web/signaling/services/signaling-server.ts:360-369 | after a shutdown every claimed port still has its alias; every alias still has its port claimed iff no other alias is registered on that address |
| Removal.ShutdownReissues | pkg/web/signaling/services/signaling-server.ts:363-369 | after a shutdown the next knock is given the id of the client that asked, still connected, iff that suffix is below every free one; it then takes over the id |
| Removal.ReissueRun | pkg/web/signaling/services/signaling-server.ts:363-369 | the shortest run to that from the empty server: knock, bind, shutdown, knock |
| Client.EmptyIsNone | pkg/web/signaling/services/signaling-client.ts:302-315 | an alias message with an empty connection id is for bind and shutdown, as one without |
| Client.EitherOrder | pkg/web/signaling/services/signaling-client.ts:166-200 | a granted connect resolves with the connection alias, whichever of the two messages comes first |
| SignalingClient.Settle | pkg/web/signaling/services/signaling-client.ts:356-364 | the emit loop resolves, or rejects, every waiting call of that id and alias, and leaves every other call as it was |
| SignalingClient.SignalingClient.Bind | pkg/web/signaling/services/signaling-client.ts:95-113 | registers one listener on the client's id and the alias, then sends the bind; calls made before keep their state |
| SignalingClient.SignalingClient.Shutdown | pkg/web/signaling/services/signaling-client.ts:133-151 | registers one listener on the same key as bind, then sends the shutdown; calls made before keep their state |
| SignalingClient.SignalingClient.Accept | pkg/web/signaling/services/signaling-client.ts:115-131 | registers one listener on the alias, then sends accepting; calls made before keep their state |
| SignalingClient.SignalingClient.Connect | pkg/web/signaling/services/signaling-client.ts:153-204 | registers a listener that has counted nothing, then sends the connect; calls made before keep their state |
| SignalingClient.SignalingClient.NotifyConnection | pkg/web/signaling/services/signaling-client.ts:170-194 | the listener counts granted messages, captures the connection alias, resolves from the second on and rejects on a refusal; a settled promise, and every other call's, stays as it is |
| SignalingClient.SignalingClient.NotifyBindAndShutdown | pkg/web/signaling/services/signaling-client.ts:356-364 | one emit resolves the waiting binds of the key and rejects its waiting shutdowns, or the other way round, and touches no other call |
| SignalingClient.SignalingClient.NotifyAccepts | pkg/web/signaling/services/signaling-client.ts:366-368 | the emit loop hands the alias to every waiting accept of that bound alias and to no other |
| SignalingClient.SignalingClient.HandleOperation | pkg/web/signaling/services/signaling-client.ts:237-335 | one message processed to its end: listeners first, then onAlias |
| Network.ThenKeeps | pkg/web/signaling/services/signaling-server.ts:105-485 | every step of clients and server, shutdowns and closed connections included, keeps every message and request on its way true of what happened |
| Network.LinesInOrder | pkg/web/signaling/services/signaling-client.ts:95-230 | requests reach the server in the order in which they were made, each once |
| Promises.WasDecided | pkg/web/signaling/services/signaling-server.ts:399-426 | a verdict on a connect call comes from one step of its handler, which registered the alias for the caller or turned the call down |
| Promises.ConnectEndToEnd | pkg/web/signaling/services/signaling-client.ts:153-204 | in every run a connect promise resolves iff both replies were processed, and then with the alias the server registered for that call and client; it is rejected iff the refusal of that call was processed |
| Promises.BindAgreement | pkg/web/signaling/services/signaling-client.ts:95-113 | in every run a bind promise resolves only if the server had registered the alias for that client, unless a shutdown of the alias crosses the bind; it is rejected only if somebody had registered the alias |
| Promises.CrossingResolves | pkg/web/signaling/services/signaling-server.ts:387-392 | a refused shutdown that crosses a bind resolves it, and comes from a shutdown call of that alias under that id |
| Settling.SettledExactly | pkg/web/signaling/services/signaling-client.ts:95-151 | in every run a bind or shutdown call waits exactly while its client processes no message on its id and alias; the first such message decides: bind as it says, shutdown the other way |
| Settling.ReturnsExactly | pkg/web/signaling/services/signaling-client.ts:115-131 | in every run accept waits exactly while its client processes no Accept for the bound alias, and returns the client alias of the first one |
| Settling.HeardFrom | pkg/web/signaling/services/signaling-server.ts:315-464 | news of its alias that a client hears after a call was unread at the call, or was sent since by one of five kinds of steps |
| Settling.FreshBind | pkg/web/signaling/services/signaling-client.ts:95-113 | in every run a bind that resolves tells that the alias was registered for the client after the call, and one that is rejected that somebody had it after the call; the exceptions are news unread at the call, the client's own shutdowns of the alias, and a connect to itself |
| Settling.FirstBind | pkg/web/signaling/services/signaling-client.ts:95-113 | the same without exceptions for the first bind of an alias under an id that shuts it down nowhere and connects to no alias of its own |
| Settling.ShutdownAgreement | pkg/web/signaling/services/signaling-client.ts:133-151 | in every run a shutdown that resolves tells that the server took the alias back from the client's id and said so after the call, and one that is rejected that the alias was not the client's after the call; the exceptions are unread news, the client's own binds of the alias, and a connect to itself |
| Calm.ResolvedOwns | pkg/web/signaling/services/signaling-client.ts:95-113 | while nothing is removed, a client whose bind has resolved is registered and owns the alias now |
| Calm.OneBinderWins | pkg/web/signaling/services/signaling-server.ts:318-343 | of any number of clients racing to bind one alias, on any address, at most one sees its promise resolve |
| Calm.ConnectsDiffer | pkg/web/signaling/services/signaling-client.ts:302-311 | no cross-talk: while nothing is removed, no two connect calls resolve with the same alias |
| Runs.RacingBinders | pkg/web/signaling/services/signaling-server.ts:315-330 | a run of the model from the empty system in which two clients get to bind one alias at the same time, and both handlers have found it free |
| Accepting.SaysIs | pkg/web/signaling/services/signaling-server.ts:105-485 | after any step of the server a peer's mail tells of an alias exactly what that step says about it, or what it told before |
| Accepting.AcceptReturns | pkg/web/signaling/services/signaling-client.ts:115-131 | in every run, when accept returns an alias the server had registered it for a connect to that bound alias and announced it to the listener, who knows of it what was said last between announcement and Accept |
| Ordering.WithdrawsIff | pkg/web/signaling/services/signaling-server.ts:315-425 | on own addresses exactly five kinds of steps tell a listener that a caller's alias is gone or somebody else's, and whose doing each is |
| Ordering.ReassuresIff | pkg/web/signaling/services/signaling-server.ts:315-484 | exactly five kinds of steps tell a listener that an alias is the caller's |
| Ordering.AcceptOrdering | pkg/web/signaling/services/signaling-server.ts:446-464 | when accept returns, the listener knows the alias as the caller's iff no withdrawing step between announcement and Accept is left without a reassuring one after it |
| Ordering.ToldUnlessCallerLeaves | pkg/web/signaling/services/signaling-server.ts:446-464 | without shutdowns, a listener that is not the caller knows the alias unless the caller leaves in between |
| Ordering.ToldWhenCalm | pkg/web/signaling/services/signaling-server.ts:446-464 | while nothing is removed it always knows; a client that connects to itself knows too unless a refusal of another of its connects that had been given the port is pending at the announcement or it binds the alias in between |
| Forgotten.RemovalOvertakesAccept | pkg/web/signaling/services/signaling-server.ts:410-464 | the server's part of the race, in the order of resumption it needs: the removal of an alias comes between its announcement and its Accept |
| Forgotten.SelfConnectRun | pkg/web/signaling/services/signaling-client.ts:302-329 | a run of the model from the empty system in which accept returns an alias the listener was told to forget: a client connecting to itself while another of its connects is refused |
| Forgotten.CallerLeavesRun | pkg/web/signaling/services/signaling-server.ts:111-127 | a run of the model from the empty system in which accept returns an alias that is gone: the caller leaves between announcement and Accept |
| TransportState.CoupledStep | pkg/web/transport/transporter.ts:35-81 | every operation keeps: a pair has a channel iff it has a queue |
| TransportState.ChannelIffQueue | pkg/web/transport/transporter.ts:348-364 | in every reachable state, shutdowns included, a message that passes the channel check is queued |
| TransportState.Elsewhere | pkg/web/transport/transporter.ts:35-376 | no operation touches connection, channels, messages or candidates of another id |
| TransportState.ConfigureEffect | pkg/web/transport/transporter.ts:52-81 | the channel given is the one registered for the pair, its queue keeps what was in it |
| TransportState.OfferEffect | pkg/web/transport/transporter.ts:83-118 | without an open connection an offer makes one without a remote description and registers the channel; with one it registers the channel only if the pair has none |
| TransportState.OfferedEffect | pkg/web/transport/transporter.ts:136-170 | a received offer does the same, but a new connection gets no channel yet |
| TransportState.RemoteSetEffect | pkg/web/transport/transporter.ts:172-208 | a remote description is set on an existing connection and on no other |
| TransportState.CandidateEffect | pkg/web/transport/transporter.ts:213-233 | a candidate is applied after the others, or queued behind the others, as the remote description is set or not |
| TransportState.PushEffect | pkg/web/transport/transporter.ts:348-363 | a message of a pair with a channel goes to the end of its queue; without a channel it is an error |
| TransportState.LostEffect | pkg/web/transport/transporter.ts:330-346 | a lost connection counts as closed |
| TransportState.ShiftEffect | pkg/web/transport/transporter.ts:314-320 | taking a message removes the head of that queue only |
| TransportState.ShutdownEffect | pkg/web/transport/transporter.ts:235-289 | a shutdown leaves neither connection nor channel nor message nor candidate of its id |
| TransportState.StartsAfresh | pkg/web/transport/transporter.ts:83-289 | after a shutdown the next offer makes a new connection, and candidates wait again |
| Candidates.DescribedBy | pkg/web/transport/transporter.ts:136-208 | a remote description is set only by an offer that found no open connection or an answer that found a connection |
| Candidates.WaitsInOrder | pkg/web/transport/transporter.ts:213-233 | until the remote description is set, nothing is applied and the queue holds what came, in that order |
| Candidates.AppliesInOrder | pkg/web/transport/transporter.ts:200-233 | from then to the flush, the queue stays and what comes is applied as it comes |
| Candidates.FlushedInOrder | pkg/web/transport/transporter.ts:200-376 | the order over a whole run: what came before the description is applied in its order by the first flush, behind what came between and before what comes later |
| Candidates.FlushApplies | pkg/web/transport/transporter.ts:366-376 | the flush loop applies the queued candidates in order, duplicates included, and leaves the queue empty |
| Candidates.FlushNotReady | pkg/web/transport/transporter.ts:213-233 | without a remote description a flush keeps each queued candidate exactly once |
| Candidates.FlushConservesIff | pkg/web/transport/transporter.ts:366-376 | a flush conserves candidates iff the remote description is set or none is queued twice |
| Candidates.Conservation | pkg/web/transport/transporter.ts:136-233 | in every run without shutdown or lost connection, handlers of offers and answers interleaved at their awaits, applied plus queued is what was received, duplicates included, and every flush finds the remote description set |
| Candidates.StaysFlushed | pkg/web/transport/transporter.ts:200-224 | once flushed, a queue stays empty and everything received has been applied |
| Transporter.Transporter.DataChannelConfiguration | pkg/web/transport/transporter.ts:52-81 | in place: the channel is registered, a non-empty queue kept, another started empty |
| Transporter.Transporter.StartOffer | pkg/web/transport/transporter.ts:83-118 | in place: afterwards there is an open connection with a channel, a new one without a remote description; queues, coupling and other ids are kept |
| Transporter.Transporter.StartAnswer | pkg/web/transport/transporter.ts:136-158 | in place: afterwards there is an open connection, with a channel if it was open before, a new one without a remote description; queues, coupling and other ids are kept |
| Transporter.Transporter.QueueMessage | pkg/web/transport/transporter.ts:348-363 | in place: a message with a channel lengthens its queue by itself, one without changes nothing |
| Transporter.Transporter.TakeQueued | pkg/web/transport/transporter.ts:314-320 | in place: the head of the queue is returned and the rest of it stays |
| Transporter.Transporter.HandleCandidate | pkg/web/transport/transporter.ts:213-233 | in place: the candidate is applied behind those applied before, or queued behind those queued before; other ids are kept |
| Transporter.Transporter.AddQueuedCandidates | pkg/web/transport/transporter.ts:366-376 | the loop over the array it found, while the entry is replaced: all applied in order and the queue empty when the remote description is set |
| Transporter.Transporter.Shutdown | pkg/web/transport/transporter.ts:235-289 | in place: connection, channels, messages and candidates of that id are gone, everything of other ids and the coupling are kept |
| Delivery.ExactlyOnceInOrder | pkg/web/transport/transporter.ts:311-328 | with recv calls of a pair not overlapping, in every interleaving, what was returned followed by the queue is what was received, and a woken receiver holds the queue head |
| Delivery.NoLostWakeup | pkg/web/transport/transporter.ts:322-326 | while a receiver waits and a message is queued, a pending emit will call that receiver with the queue head, and no earlier emit calls anybody |
| Delivery.OverlapDuplicates | pkg/web/transport/transporter.ts:322-326 | two overlapping recv calls of a pair return the next message twice |
| Sockaddr.WriteAddress | pkg/web/sockets/sockets.ts:129-151 | the loop of accept in place: the first bytes of the address field, as many as stored and at most eight, and no other byte |
| Sockaddr.FieldsOfAnyText | pkg/web/sockets/sockets.ts:133-139 | for any alias text: parts that are missing or no numbers are stored as 0, octets modulo 256 |
| Sockaddr.DecodeIs | pkg/web/sockets/sockets.ts:95-107 | what is read of an address, however it is cut: the octets that are there, and the port if both its bytes are |
| Sockaddr.AcceptThenBind | pkg/web/sockets/sockets.ts:95-151 | what accept stores, bind reads as the same four octets and the port with its bytes swapped |
| Sockaddr.TextSurvivesIff | pkg/web/sockets/sockets.ts:105-136 | the alias text survives that iff both bytes of the port are equal |
| Sockaddr.BindThenAccept | pkg/web/sockets/sockets.ts:95-151 | storing what was read keeps the octets and swaps the two port bytes |
| Sockaddr.DecodeFailsIff | pkg/web/sockets/sockets.ts:95-107 | reading an address fails iff it is cut in the middle of the port |
| Sockaddr.OutsideUnchanged | pkg/web/sockets/sockets.ts:141-151 | bytes outside the first eight, or beyond the stored length, are unchanged; the others are those of the address |
| Sockaddr.HtonsInvolution | pkg/web/utils/htons.ts:1 | the byte swap undoes itself exactly on 16-bit numbers |
| Sockaddr.WordBytes | pkg/web/utils/getAsBinary.ts:1-7 | the low bytes of a number come first, and swapping them is htons |

## Code and documentation

- A comment in the tests (pkg/web/signaling/services/signaling-server.test.ts:107) speaks of
  255 addresses; the code, and so the model, hands out the 256 suffixes 0 to 255.
- `unisockets_accept` reads the length as an integer in memory; the code reads one byte
  of it (pkg/web/sockets/sockets.ts:129-131), and so does the model.
- A shutdown frees the whole address of its alias (pkg/web/signaling/services/signaling-server.ts:369);
  the model does the same, and `Removal` says exactly what follows.

## Left out

- Allocator.ClaimTCPEffect: an alias in a known subnet whose suffix or port does not parse puts NaN among the keys or ports; from then on the comparator `a - b` of the program's sorts is not consistent, and section 23.1.3.30 of ECMA-262 leaves the order, and so the next number handed out, to the implementation. Such binds are excluded (`Claimable`).
- SignalingServer.SignalingServer.ClaimTCPAddress: excludes the same binds.
- SignalingServer.SignalingServer.HandleBind: excludes the same binds.
- Ownership.SetNeverOverwrites: excludes the same binds; in the program NaN is never found among the ports, so two racing binds of an alias in a known subnet whose port does not parse are both granted, and the later one overwrites the entry of the earlier.
- Calm.ResolvedOwns: excludes the same binds, after which the earlier of the two owns the alias no more.
- Calm.OneBinderWins: excludes the same binds, for which both promises resolve. A client that calls bind twice for one alias sees both promises resolve too, as both wait for the same message; the theorem tells clients apart, not calls.
- Address.ParseDecimal: the white space, sign and hexadecimal prefix that parseInt also accepts are not modelled.
- Promises.BindAgreement: the registration may be older than the call, and by an earlier holder of the id; `Settling.FreshBind` is about the time after the call. What a crossing shutdown does is stated beside it, in `CrossingResolves`.
- Settling.FreshBind: tells ids apart, not the connections that hold one id after it was given out twice.
- Mutexed.SimulatesAwaits: a connection closes, in one step, while the lock is free.
- Runs.RacingBinders: whether a queue of promise jobs, first in, first out, admits this order.
- Forgotten.RemovalOvertakesAccept: the same.
- Forgotten.SelfConnectRun: the same.
- Forgotten.CallerLeavesRun: the same, for a close event between two promise jobs.
- Promises.ConnectEndToEnd: a client connects to the server once; that it reconnects on a new connection while old promises are pending is not modelled.
- Calm.ConnectsDiffer: while nothing is removed, since an alias is given out again once its owner has left.
- Ordering.AcceptOrdering: binds name the client's own address; `AcceptReturns` holds without that.
- Ownership.ExactlyOneHolder: runs without shutdown and closed connections, since a shutdown frees ports of other holders.
- Greetings.PairwiseGreeting: runs without shutdown, and without both foreign binds and closed connections, since otherwise an id can be issued twice.
- Delivery.ExactlyOnceInOrder: runs without shutdown of the connection, which drops its queue.
- Candidates.Conservation: runs without shutdown and lost connection, which drop or replace the connection; `FlushConservesIff` says what a flush does in any state.
- Removal.DisconnectOwned: a closed connection is one step; a knock that reuses the id between the release of the address and the sweep of the aliases is not modelled.
- Transporter.Transporter.TakeQueued: the waiting half of recv is the state machine of `Delivery`, as Dafny methods do not suspend.
- The close of a connection whose id was given to another one, after a shutdown freed it.
- The wait loop of the transporter's `send`: it depends on the browser opening the channel.
- WebRTC itself: session descriptions, ICE and connection states beyond "closed" and "remote description set".
- WebSocket and HTTP set-up, ping and pong, timers, reconnection, logging and JSON text.
- Routing of offers, answers and candidates by the server, and the opcode switches: one branch each.
- The file descriptor tables of `Sockets`, and their replication between worker and main thread in `cmd/unisockets_runner_web`.
- The length guards of `unisockets_recv` and `unisockets_getsockname`, which admit one byte more than the length.
- An upper bound of 65535 on ports: the code has none; a new port is bounded by the number of ports held.
- The Go, TinyGo and C bindings and the example programs.
