# totem: a verified model of the protocol core

totem multiplexes unary and server-streaming RPCs, in both directions, over one
stream of tagged messages, and joins ("splices") streams so that calls and service
discovery travel over a graph of peers. This project models that core in Dafny and
proves what it promises, for every input, every run and every graph.

`dafny verify dfyconfig.toml` checks the whole project.

## How the model is organised

- **Messages** – the messages of `totem.proto`, status and metadata conversion, and the
  message object that forwarding mutates.
- **Flow, FlowInvariant** – one direction of the tag protocol as a transition system with
  steps as fine as the goroutines that interleave: take a tag, store the future, send,
  hand to a worker, stream, reply, give up, receive, read the future, leave the loop,
  drain one entry, end the drain. Sends may fail and workers may leave without a reply at
  any time. The unexpected-tag panics and a send on a closed future are explicit outcomes.
- **Duplex, DuplexTheorems, TagReuse** – two endpoints, each client and server, and two FIFO
  wires on which both directions are interleaved. Every event of the pair is one step of
  `Flow` or none when seen from either side (`Duplex.EventRefines`), and the theorems hold in
  every state of every run. TagReuse is the run that shows where they stop.
- **Histories** – the same runs told by their events: what callers asked, what workers sent and
  the error with which the loop ended is what arrives, and no goroutine gets stuck.
- **Controller** – the client half of `StreamController` as an object updated in place;
  each method is one of the steps of `Flow`, or the drain loop, and in every state of every
  run of two endpoints it does what the run does (`Controller.ProcessNext`).
- **Registry, Dispatch** – service handlers, the handler list as a slice that is shifted in
  place, its contents over every history of appends and expirations, and `handleRequest` with
  all its branches, on a list that other goroutines change between its reads.
- **Discovery, Topology, Registration, Chains** – `ListServices` as a recursive method proved
  equal to bounded reachability, the splice graph that `Splice` and `Serve` build, which handlers
  they register where, and the networks on which a hop limit limits.
- **Relay, Routing, Fleet** – calls through any number of relays, exactly when "First" routing
  ends, and why it always does between servers, whatever streams join them.
- **Receiver, StreamWrapper, Names** – the receive wrapper and its kick, header handling of a
  server stream, and qualified method names. **Sets** has one lemma on the size of sets.

Concurrency is modelled by transition systems whose steps interleave freely. A worker of
`Flow` sends stream messages and then at most one response; that `handleRequest` does so is
`Dispatch.HandleRequest` (`Flow.Script`). A forwarding goroutine of `Relay.CopyFuture` needs a
future that ends in a response; that futures do is `DuplexTheorems.FutureHistory`.

Assumptions about the outside: wires are FIFO until they fail and a send is atomic (it
happens under `sendLock`); a range over a concurrent map visits a key at most once, and
visits every key that is present throughout; controller uuids and stream contexts are distinct;
nothing gets through on a stream whose context has ended; tracing is off; metadata keys are lower
case, as `FromOutgoingContext` leaves them; user handlers and interceptors are arbitrary
functions or arbitrary finite runs; clocks, randomness and the transport do not occur, and
what they decide (which step comes next, whether a send fails, when a context ends) is left
open.

## Where the code falls short, and exactly when

- Tags come from an unsigned 64-bit counter, and two calls share one exactly if a multiple of
  2^64 lies between them (`FlowInvariant.TagsCollide`). Storing a future keeps every pending
  call in the table exactly if no other call is pending under its tag
  (`FlowInvariant.StoreKeepsPending`). With one tag more than 2^64 there is a run in which a
  pending call is dropped, an answer reaches the wrong caller and Run panics
  (`TagReuse.OneTagTooMany`). All run theorems are about runs in which neither endpoint has
  drawn more than 2^64 tags so far, and no larger bound would do (`TagReuse.BoundIsExact`).
- A negative hop limit is not a special value: the counter wraps, and a limit `h` stops a path
  at depth `h mod 2^32`. It finds everything reachable on all networks with at most `n`
  forwarding controllers exactly if `n < h mod 2^32` (`Chains.LimitIsExact`); so a negative
  limit is no limit below 2^31 of them (`Discovery.NegativeIsUnlimited`), and on a longer chain
  every limit misses a reachable service (`Chains.DiscoveryMisses`).
- The "not found (broadcast)" branch is reachable: `handleRequest` reads the list several
  times, and another service may have taken its place in between
  (`Dispatch.BroadcastCanMiss`). The branch is taken exactly when the list has come to describe
  a different service, one without the method, and then the list was empty at some point
  between the reads (`Dispatch.BroadcastMissesExactly`). "Exactly" is about handlers whose tables
  agree with their descriptor, as `NewDefaultServiceHandler` makes them; `MethodInvokers` and
  `MethodQOS` are exported, and a handler from which an application took an invoker also takes
  the branch, for any list: it does so if and only if some handler of the snapshot has no
  invoker for the method (`Dispatch.Broadcasting`). The reply is a nil error, because the
  error in the callback is shadowed, and the caller reads an unknown failure
  (`Dispatch.MissReadsAsUnknown`).
- Routing by the oldest handler serves a request exactly if the controllers on its way can be
  ranked so that each has a handler and forwards only downwards (`Routing.ServedExactly`), and
  goes round for ever exactly if there is no ranking even with dead ends
  (`Routing.LoopsExactly`). An application that registers handlers on controllers itself, with
  `RegisterServiceHandler` and `NewInvoker`, can make it go round: when targets were not ready
  (`Routing.MutualForwardingNeverEnds`), or when they were and a handler is removed
  (`Routing.RemovalCanLoop`). With ready targets and no removal it ends
  (`Routing.RoutingReachesAHandler`). `Splice` and `Serve` cannot make it go round, on
  no graph of streams and whatever is removed (`Fleet.FleetNeverLoops`).
- A client-streaming method gets no reply at all, and a server stream no terminal message
  exactly if it was cancelled or its channel carried no response; nothing else lacks one
  (`Dispatch.TerminalCount`). Handlers as
  `NewDefaultServiceHandler` builds them reach both cases (`Dispatch.ClientStreamIsSilent`,
  `Dispatch.CancelledStreamHasNoEnd`).

## Model

| member | source | states |
|---|---|---|
| `Messages.GetStatus` | status.go:8-13 | a missing status never reads as OK, a present one reads as itself |
| `Messages.WrapMD` | metadata.go:16-29 | the loop that wraps metadata computes the wire form key by key, nil stays nil, and unwrapping gives the metadata back |
| `Messages.UnwrapMD` | metadata.go:8-14 | the loop that unwraps metadata is the inverse of wrapping |
| `Messages.MetadataRoundTrip` | metadata.go:8-29 | metadata survives the conversion done at every hop |
| `FlowInvariant.TagsDistinct` | stream.go:143-144 | the counter's tags are pairwise different if and only if at most 2^64 were drawn |
| `FlowInvariant.TagsCollide` | stream.go:143-144 | two calls draw the same tag if and only if a multiple of 2^64 lies between them |
| `FlowInvariant.StoreKeepsPending` | stream.go:147-147 | storing a future keeps every pending call in the table if and only if no other call is pending under its tag |
| `TagReuse.OneTagTooMany` | stream.go:143-151 | a run with one tag more than 2^64 in which a pending call is dropped from the table, an answer ends up in the future of another call, and Run panics |
| `TagReuse.BoundIsExact` | stream.go:333-355 | no run with at most n tags per endpoint panics if and only if n is at most 2^64 |
| `FlowInvariant.HeadFindsItsFuture` | stream.go:337-354 | while Run loops, the next reply finds under its tag the open future of the call that caused it |
| `FlowInvariant.StepKeepsInv` | stream.go:120-379 | every step of one direction keeps the invariant: per-call FIFO, one place per call, futures well formed, table exact, drain obligations |
| `FlowInvariant.ReceiveKeepsInv` | stream.go:337-355 | delivering a reply keeps the invariant of every call |
| `FlowInvariant.DrainOneKeepsInv` | stream.go:360-374 | one visit of the drain keeps the invariant of every call |
| `Duplex.EventRefines` | stream.go:310-379 | for the calls of either endpoint, an event of the pair is one step of the one-direction protocol or none, although both directions share wires and tag numbers |
| `Duplex.ReachedInv` | stream.go:310-379 | every state of every run of two endpoints satisfies the invariant in both directions |
| `DuplexTheorems.NeverPanics` | stream.go:333-374 | no unexpected-tag panic, no send on a closed future, no double close, and never the exit that skips the drain, in any run |
| `DuplexTheorems.ReplyReachesItsCaller` | stream.go:337-354 | a reply about to be processed carries a tag of this endpoint's table, and that entry is the open future of the call being answered |
| `DuplexTheorems.RepliesArriveInOrder` | stream.go:161-252 | for each call, what its future got from the peer followed by what is on the wire is exactly what the peer's worker sent |
| `DuplexTheorems.FutureHistory` | stream.go:341-374 | each future holds stream messages, then at most one response, all under its call's tag, and is closed exactly when it holds a response; a consumer reads nil only after one |
| `DuplexTheorems.EachCallInOnePlace` | stream.go:143-159 | each call is in exactly one of: inside Request, request on the wire, in a worker, answered, lost |
| `DuplexTheorems.PendingAnswerIsOnTheWire` | stream.go:341-347 | a pending call has been answered if and only if its terminal response is on the wire |
| `DuplexTheorems.RequestsArriveIntact` | stream.go:141-150 | requests on the wire are those their callers made, and workers hold the tags of their requests |
| `DuplexTheorems.CallsAreConserved` | stream.go:143-147 | each call is exactly one of: not yet stored, pending, completed; the table maps each tag to the call that drew it |
| `DuplexTheorems.DrainCompletesCalls` | stream.go:360-374 | once the drain is over, every call that was pending when the loop ended is completed |
| `DuplexTheorems.DrainedReadsAsFailure` | stream.go:363-371 | a call answered by the drain reads the error that ended the stream, and an unknown failure after a clean EOF, never a success |
| `Histories.PendingIsCompleted` | stream.go:360-374 | in every run: a call that was pending while Run was in its loop is completed once Run has returned |
| `Histories.PendingReadsTheError` | stream.go:322-374 | in every run: when the loop ends with an error, or a clean EOF, each call pending then gets exactly one more message, which tells its caller of that error, or of an unknown failure |
| `Histories.RequestsAreAsMade` | stream.go:120-151 | in every run, the requests are the messages callers passed to Request, in the order of their tags, unchanged but for the tag |
| `Histories.CallersGetWhatWorkersSent` | stream.go:161-252 | in every run, what a future got from the peer, followed by what is on the wire for it, is what the events say the peer's worker sent: content and metadata, in order, under the call's tag |
| `Histories.EveryoneCanMove` | stream.go:120-252 | in every reached state callers can ask, whoever is inside Request can go on, and a worker can stream, reply or give up, with any content |
| `Histories.LoopCanGoOn` | stream.go:333-355 | in every reached state Run can process the next message on the wire, at most after one consumer has read one message |
| `Histories.DrainCanFinish` | stream.go:360-374 | from every reached state in which Run drains, it can return |
| `DuplexTheorems.UnaryNeverBlocks` | stream.go:145-147 | the future of a pending call for which nothing was streamed is empty, so neither loop nor drain blocks on it |
| `Controller.StreamController.AllocateTag` | stream.go:141-145 | in place: the next tag of a wrapping counter, and a new empty future, as in the protocol step |
| `Controller.StreamController.StoreFuture` | stream.go:147-147 | in place: the future is in the table under the message's tag, as in the protocol step |
| `Controller.StreamController.Request` | stream.go:141-151 | in place: the message object gets metadata and tag, and the call is pending, as in the protocol steps of one Request |
| `Controller.StreamController.TakeFrom` | clientconn.go:135-137 | in place: the consumer reads the next message of a future |
| `Controller.StreamController.ProcessReply` | stream.go:337-355 | in place: the two reply cases of Run's switch, panics included, as in the protocol step; blocked if and only if the future is full |
| `Controller.StreamController.Drain` | stream.go:360-374 | the drain loop empties the table, answers and closes exactly the futures that were in it, and changes no other; it blocks if and only if one of them is full |
| `Controller.ProcessNext` | stream.go:337-355 | in every state of every run, processing the next reply does not panic, and takes the object to the state that follows in the run or waits for a full future |
| `Controller.DrainNow` | stream.go:360-374 | in every state of every run the drain may start, and it answers all pending calls if their futures have room |
| `Registry.NewDefaultServiceHandler` | types.go:64-99 | fails if and only if a broadcast method is streaming or does not return google.protobuf.Empty; otherwise invokers and infos exist exactly for the descriptor's methods, all with the given invoker, and infos and strategies repeat what the descriptor says of each |
| `Registry.DefaultHandlerIsBuilt` | types.go:69-98 | the tables of a handler agree with each other and with its descriptor |
| `Registry.BroadcastsAreUnary` | types.go:83-95 | a handler built from allowed methods broadcasts only unary ones that return google.protobuf.Empty |
| `Registry.ServiceHandlerList.Append` | types.go:106-125 | appends if and only if the descriptor equals those in the list, and keeps all descriptors equal |
| `Registry.ServiceHandlerList.Expire` | types.go:118-124 | the end of a context removes the first occurrence of that handler, in place, and keeps the others in order |
| `Registry.ServiceHandlerList.DeleteAt` | types.go:121-123 | deletion shifts the rest of the slice up in its backing array |
| `Registry.ServiceHandlerList.Range` | types.go:127-137 | whatever other goroutines append and delete in place meanwhile, the callback sees the handlers that were in the list at the start, once each, in order, up to the first it refuses |
| `Registry.ListIsLiveHandlersInOrder` | types.go:106-125 | after any history, repeated appends of one handler included, the list is exactly the handlers registered and not ended, in order of registration |
| `Registry.LiveUntilContextEnds` | types.go:118-124 | a registration of a handler appended once lives exactly until its context ends |
| `Registry.ListHasOneDescriptor` | types.go:110-114 | after any history all handlers of a list have equal descriptors |
| `Registry.FirstIsOldest` | types.go:145-151 | First is the oldest live handler after any history |
| `Registry.OwnReflectionStaysFirst` | stream.go:106-108 | the handler registered first stays first while its own context lives, whatever else comes and goes |
| `Dispatch.PumpReplies` | stream.go:612-642 | the response loop sends the stream messages in order and holds the last response back to the end; a cancelled one stops |
| `Dispatch.PumpedIsPassedOn` | stream.go:612-642 | the contents of the stream messages among the items read are sent one by one, in order, and then a response with the status, payload and metadata of the last one, if there is one and the channel was read to its end |
| `Dispatch.PumpedIsScript` | stream.go:612-642 | at most one terminal message, last, even if stream messages were queued behind the response; one if and only if there was a response and no cancellation |
| `Dispatch.Broadcasting` | stream.go:566-577 | the broadcast range invokes the handlers that are in the list when it starts, once each, in order, with the same service, method, content and metadata, although the message is overwritten and the list changed in between; it succeeds if and only if all have the method, and otherwise stops at the first that has not |
| `Dispatch.HandleRequest` | stream.go:550-659 | for every list, every interference with it between the reads, and every request: what is sent and invoked in each branch, all under the request's tag, as stream messages and at most one last terminal message |
| `Dispatch.UnaryIsInvoked` | stream.go:558-601 | a method that its descriptor says is unary, and not broadcast to several, is invoked once, at the first handler, with the request as it came; its caller reads what was returned, under the outgoing metadata |
| `Dispatch.StreamIsPumped` | stream.go:602-642 | a server-streaming one is invoked once, at the first handler; its caller reads the refusal or what the channel carried |
| `Dispatch.BroadcastIsForAll` | stream.go:566-580 | a broadcast one with several handlers is invoked once at each, in order, and its caller reads an empty success |
| `Dispatch.OthersAreRefused` | stream.go:643-659 | for a service without a handler, or a method not in its descriptor, nobody is invoked, and the caller reads Unimplemented or NotFound |
| `Dispatch.TerminalCount` | stream.go:550-659 | exactly one terminal message for unknown services, unknown methods, broadcasts and unary methods, none for client streams, and the exact condition for server streams |
| `Dispatch.ClientStreamIsSilent` | stream.go:587-657 | a client-streaming or bidirectional method of an accepted handler is never invoked and never answered |
| `Dispatch.CancelledStreamHasNoEnd` | stream.go:612-617 | a server stream cancelled after k items has sent the stream messages among them and no end |
| `Dispatch.BroadcastReachesAll` | stream.go:568-585 | if the list does not run empty between First and Range, every handler has the method, so the not-found branch is not taken |
| `Dispatch.MissedByDescriptor` | stream.go:568-577 | after any history a snapshot misses a method if and only if it is not empty and its service does not define the method |
| `Dispatch.BroadcastMissesExactly` | stream.go:568-585 | the not-found branch is taken if and only if the list has come to describe another service without the method, and only if it was empty in between |
| `Dispatch.BroadcastCanMiss` | stream.go:568-585 | for any two method names, a history and an interference with which the not-found branch is taken |
| `Dispatch.MissReadsAsUnknown` | stream.go:578-585 | a broadcast is answered once, with an empty success, or with a nil error that the caller reads as an unknown failure |
| `Discovery.ListServices` | stream.go:381-544 | terminates on every graph; returns, once each, exactly the names registered at controllers that a walk within the hop budget reaches avoiding the initiator and the visited ones, each with the descriptor of an oldest handler there |
| `Discovery.HandlersAreReported` | stream.go:432-438 | a controller reports every service it has a handler for, local or forwarding |
| `Discovery.OnlyHandlersAreReported` | stream.go:399-438 | asked with one hop, it reports no other |
| `Discovery.ForwardToPeers` | stream.go:439-516 | the loop over the reflection handlers adds exactly what the controllers behind them find |
| `Discovery.FoundUnfolds` | stream.go:428-516 | bounded reachability by walks satisfies the recursion of a search with a per-path visited list and a depth cut-off |
| `Discovery.DecrementSpendsOne` | stream.go:401-429 | each decrement of the signed 32-bit counter, wrap-around included, spends one of h mod 2^32 controllers |
| `Discovery.Dedupe` | stream.go:518-540 | every name once, with its first descriptor |
| `Discovery.NegativeIsUnlimited` | server.go:106-110 | any negative limit finds everything reachable on networks of up to 2^31 controllers, or fewer than 2^31 forwarding ones |
| `Discovery.LargeBudgetIsUnlimited` | stream.go:399-429 | a budget of at least the number of controllers, or more than the number of forwarding ones, is no limit |
| `Chains.ChainExceeds` | stream.go:401-429 | along a chain of spliced controllers, a service one controller beyond the budget is reachable and not found |
| `Chains.DiscoveryMisses` | stream.go:399-429 | for every limit, negative ones included, a network of servers, each in a state of a life of its own, on which discovery misses a reachable service |
| `Chains.SpliceDiscovers` | server.go:206-218 | what each splice of that network is told is what discovery returns at that time, before the service is registered |
| `Chains.LimitIsExact` | stream.go:399-429 | a limit h finds everything on all networks with at most n forwarding controllers if and only if n < h mod 2^32 |
| `Discovery.DiscoverServices` | discovery.go:16-73 | asking the peer finds exactly what is reachable from it within the limit without passing through the asking controller, and everything so reachable if the budget covers the network |
| `Topology.ReflectionIsAnsweredLocally` | server.go:156-226 | through every sequence of registrations, splices, serves, ends of contexts and removals, the first reflection handler of a controller is its own local one as long as its own stream lives |
| `Topology.EdgesAreSplices` | stream.go:463-483 | discovery is forwarded only from the main controller, and only to peers of spliced streams; spliced controllers forward nothing |
| `Topology.SplicedReportsOwn` | stream.go:463-516 | what discovery finds at a spliced controller is registered with that controller itself |
| `Topology.SpliceAddsEdge` | server.go:206-218 | from a splice that returned and whose peer reported the reflection service, and as long as its stream lives, discovery is forwarded to that peer, whatever else is registered, spliced, served or removed |
| `Topology.LifeKeepsInv` | server.go:250-326 | every operation on a server keeps the classification of reflection handlers in all its controllers; splices whose discovery fails, and splices and serves that end in a panic half way, included |
| `Registration.SpliceRegisters` | server.go:206-224 | a splice whose discovery succeeds adds, for every discovered service, a handler on the spliced stream with its context to the main controller, which keeps its own; the other controllers stay as they are |
| `Registration.SpliceShowsVisible` | server.go:175-193 | every local handler that spliced clients may see is registered at the new controller |
| `Registration.SpliceShowsNoOther` | server.go:175-193 | but for the reflection service, no other handler is |
| `Registration.ServeRegisters` | server.go:304-316 | a serve whose discovery succeeds adds, for every discovered service, a handler on the server's own stream with its context to each controller of a splice that returned; the main one and all others stay as they are |
| `Registration.NewControllerDescribes` | stream.go:85-110 | a new controller has two reflection handlers and nothing else: its own local one and then its peer's |
| `Registration.ExpireTakesOne` | types.go:118-124 | the end of a handler removes one entry, at one controller |
| `Registration.EndedCanBeRemoved` | types.go:118-124 | once a context has ended its handlers can be removed, at any controller |
| `Registration.ReportsItsHandlers` | stream.go:432-438 | through every life of a server: a controller, asked with one hop, reports exactly the services it has handlers for |
| `Registration.SplicedIsReported` | server.go:206-218 | from a splice that returned, and as long as the handler is not removed, the main controller reports every service the splice discovered |
| `Relay.RelayUnary` | invokers.go:153-193 | for any number of relays: the handler's outcome under the originator's tag, the handler called once with unchanged request and metadata, one tag drawn per relay and nothing left pending under it |
| `Relay.CallUnary` | invokers.go:153-193 | a client's unary call through any number of relays gives it the handler's own outcome for the service, method, content and metadata it passed, in a future that holds that one answer and is closed |
| `Relay.RelayStream` | invokers.go:195-238 | for any number of relays: the handler's messages in order, then one terminal response with its status and trailers, under the originator's tag; one tag drawn per relay and nothing left pending under it |
| `Relay.CallStream` | invokers.go:195-238 | a client's stream through any number of relays: its own future receives exactly the handler's own messages, in order, and one response that reads as its error, or as an empty success, with its trailers, and is closed |
| `Relay.AnswerArrives` | stream.go:337-355 | in any run of two endpoints, an answer that was sent and has arrived is the whole history of its future, which is closed, unless the drain came first |
| `Relay.StreamPassesRelays` | invokers.go:195-238 | through any number of relays, each in a run of its own with anything else going on: the handler gets the originator's call, and the future of every leg the handler's messages in order and one terminal response, and is closed |
| `Relay.AnswerPassesRelays` | invokers.go:153-193 | the same of unary calls: every leg's future has one answer, which reads as the handler's outcome for the originator's call |
| `Relay.Deliver` | stream.go:337-355 | message by message, a stream passes the pending table and the capacity-one future and comes out unchanged |
| `Relay.RelayedStreamIsExpected` | stream.go:602-642 | one more relay does not change a stream but for the tag |
| `Relay.LocalStreamIsExpected` | invokers.go:103-133 | what a local handler's run puts on the wire: its messages, then its status and trailers |
| `Relay.CopyFuture` | invokers.go:217-236 | the forwarding goroutine passes on a whole future, in order, up to its response, or up to the point where its context ends |
| `Routing.ServedExactly` | stream.go:558-594 | on any graph a request reaches a local handler if and only if the controllers can be ranked so that each has a handler and forwards downwards |
| `Routing.LoopsExactly` | stream.go:558-594 | a request goes round for ever if and only if no ranking exists even when dead ends are allowed |
| `Routing.RoutingReachesAHandler` | types.go:145-151 | on any graph, cyclic too, a request for a known service reaches a local handler within as many forwards as the oldest handler is old, if targets were ready when forwarding handlers were registered and nothing is removed |
| `Routing.ServedIsLocal` | stream.go:558-594 | routing ends at a controller whose oldest handler is local |
| `Routing.MutualForwardingNeverEnds` | stream.go:112-118 | two controllers that an application made to forward to each other forward for ever |
| `Routing.RemovalCanLoop` | types.go:118-124 | with ready targets and a live implementation, the removal of one handler can make a request go round for ever |
| `Fleet.FleetNeverLoops` | server.go:156-271 | whatever streams join the main and spliced controllers of any number of servers, at every moment of every history of registrations, splices, serves and removals, a request at any controller ends after at most as many controllers as have started, plus one |
| `Fleet.FirstRegistrationLeads` | server.go:206-310 | from the first registration at a controller, and as long as nothing is removed there: while it runs it serves requests itself, or forwards them over the spliced stream from a main controller and over the server's own from a spliced one |
| `Fleet.FleetAtWork` | server.go:156-310 | a life in which requests at a main controller reach the server it spliced, and those that come in over the spliced stream reach the main controller's peer |
| `Fleet.EndedCanBeRemoved` | types.go:118-124 | once a stream's context has ended, each handler that depends on it can be removed |
| `Fleet.StoppedHandlesNothing` | server.go:238-262 | a controller whose loop has ended handles no request |
| `Receiver.ProcessedInOrder` | recv.go:49-86 | Run processes a prefix of what the stream returned, in order; if it leaves by the stream's end it has processed all of it and the error is the stream's, and if it was kicked, it is that of the first who kicked |
| `Receiver.MessagesMoveOn` | recv.go:49-79 | as long as Run is in its loop and something returned by the stream is not processed, it can be pushed or taken |
| `Receiver.KickNeverBlocks` | stream.go:254-266 | however many senders fail, a kick never blocks and is acknowledged at most once |
| `Receiver.KickEndsTheLoop` | recv.go:79-84 | a kick that was sent can be taken by Run as long as it loops; acknowledged if and only if Run left by the kick |
| `StreamWrapper.LocalServerStreamWrapper.SetHeader` | stream_wrapper.go:119-130 | in place: empty and invalid metadata change nothing, valid metadata are joined |
| `StreamWrapper.LocalServerStreamWrapper.SendHeader` | stream_wrapper.go:73-91 | in place: headers are joined first and written once; a second write is refused after the join, and a write to a closed wrapper may be |
| `StreamWrapper.LocalServerStreamWrapper.SendMsg` | stream_wrapper.go:94-116 | in place: the message carries the headers if nothing was to be written before; a closed wrapper may refuse it, and one that cannot be marshalled changes nothing |
| `StreamWrapper.OnlyFirstMessageCarriesHeaders` | stream_wrapper.go:73-130 | over any sequence of calls only the first message written carries metadata: for each key all values accepted for it, in order; they are lost only if a closed wrapper refused that write |
| `StreamWrapper.SendsAreWritten` | stream_wrapper.go:73-116 | over any sequence of calls the messages written are those of the accepted sends, one each, in order, with the payloads sent, and an empty one for the first SendHeader |
| `StreamWrapper.ResultsTell` | stream_wrapper.go:73-116 | a send reports success if and only if its message was written; headers can be sent once |
| `StreamWrapper.TrailersAreJoined` | stream_wrapper.go:132-140 | over any sequence of calls the trailers hold, for each key, all values passed to SetTrailer, in order |
| `Names.QualifiedNameRoundTrip` | util.go:57-75 | printing and parsing give service and method back if and only if neither contains a slash, and parsing fails otherwise |

## Left out

- Fleet.FleetNeverLoops: handlers that an application registers itself, through `RegisterServiceHandler`, are not part of it; they can loop (`Routing.MutualForwardingNeverEnds`).
- Relay.RelayUnary: one schedule, in which no other call is under way; `Relay.AnswerPassesRelays` is about all schedules.
- Relay.CallUnary: the same schedule, and `Relay.AnswerPassesRelays` likewise.
- Relay.RelayStream: one schedule, in which every message is read at once; `Relay.StreamPassesRelays` is about all schedules.
- Relay.CallStream: the same schedule, and `Relay.StreamPassesRelays` likewise.
- Chains.DiscoveryMisses: the service is registered at the last controller after the splices, which `RegisterServiceHandler` allows and a serving `Server` does not.
- Liveness: nothing is claimed about calls whose worker gave up, whose request was stored during or after the drain, or when a streaming consumer stops reading and its full future blocks the receive loop.
- Worker pool size and queueing: a request on the wire is handed to a worker in one step.
- A service that discovery reports but the intermediate controller has no handler for: discovery and routing are proved separately.
- Delivery of server-stream headers to the caller: the wrapper puts them into message metadata, which `StreamReply` does not forward.
- `serverStreamClientWrapper`, call options, forwarding of raw messages and marshalling in `clientconn.go`: only what a caller makes of a response (`Messages.Observe`) is modelled.
- The registry of known streams in `recv.go`, the double-start checks, and `CloseOrRecv` with the server's lock hand-over: their outcome depends on the transport.
- A second `Close` of a wrapper and a send on its closed channel, both of which panic: handlers are assumed not to send after they have returned.
- The growth of slices on append: any larger backing array would do.
- Text of "not found" and "unknown service" messages: names are not quoted as Go quotes them.
- Tracing, metrics, logging, per-character metadata validation, generated code and the examples.
