/** Calls that travel through any number of spliced relays.

    Every relay overwrites the tag and the metadata of the message object it
    received before it sends it on, and answers its own caller under the tag it
    saved.  Whatever the number of relays, the originator sees what it would see if
    it were connected to the final handler. */
module Relay {
  import opened Messages
  import Dispatch
  import Flow
  import opened Controller
  import Duplex
  import DuplexTheorems

  /** A request as a handler sees it. */
  datatype Call = Call(serviceName: string, methodName: string, request: Bytes, metadata: Metadata)

  function CallOf(m: RPC): Call
    requires m.content.Request?
  {
    Call(m.serviceName, m.methodName, m.content.request, ToMD(m.metadata))
  }

  predicate Distinct(ctrls: seq<StreamController>) {
    forall i, j :: 0 <= i < j < |ctrls| ==> ctrls[i] != ctrls[j]
  }

  ghost predicate AllValid(ctrls: seq<StreamController>, k: nat)
    reads ctrls
  {
    forall i :: k <= i < |ctrls| ==> ctrls[i].Valid()
  }

  /** A controller has carried one more call: it drew one tag, the call's future got the
      messages `ms`, all of which were read, and was closed, and nothing is pending under
      the tag. */
  ghost predicate Carried(was: Flow.Client, now: Flow.Client, ms: seq<RPC>)
    requires |was.issued| == |was.futures|
  {
    && |now.issued| == |was.issued| + 1
    && now.futures == was.futures + [Flow.Future(ms, |ms|, true)]
    && now.pending == was.pending - {Flow.TagOf(|was.issued|)}
    && now.phase == was.phase
  }

  /** The relays have each carried one call, which ended in a response; the last controller
      has sent nothing. */
  ghost predicate UsedOnce(last: bool, was: Flow.Client, now: Flow.Client)
    requires |was.issued| == |was.futures|
  {
    if last then now == was
    else exists ms :: Carried(was, now, ms) && Flow.Script(ms) && Flow.Terminated(ms) && Flow.Under(ms, Flow.TagOf(|was.issued|))
  }

  /** Deliver `ms` to the future of call `n`, which is pending and has been read so far:
      Run puts one message after the other into the future, and the consumer reads it. */
  method Deliver(ctrl: StreamController, n: nat, ms: seq<RPC>) returns (items: seq<RPC>)
    requires ctrl.Valid() && n < |ctrl.issued| && Flow.IsPending(ctrl.State(), n) && ctrl.futures[n] == Flow.Future([], 0, false)
    requires Flow.Script(ms) && Flow.Terminated(ms) && Flow.Under(ms, ctrl.issued[n].tag)
    modifies ctrl
    ensures ctrl.Valid() && items == ms
    ensures ctrl.issued == old(ctrl.issued) && ctrl.phase == old(ctrl.phase)
    ensures ctrl.futures == old(ctrl.futures)[n := Flow.Future(ms, |ms|, true)]
    ensures ctrl.pending == old(ctrl.pending) - {ctrl.issued[n].tag}
  {
    items := [];
    ghost var tag := ctrl.issued[n].tag;
    for i := 0 to |ms|
      invariant ctrl.Valid() && ctrl.issued == old(ctrl.issued) && ctrl.phase == old(ctrl.phase)
      invariant items == ms[..i]
      invariant ctrl.futures == old(ctrl.futures)[n := Flow.Future(ms[..i], i, i == |ms|)]
      invariant ctrl.pending == if i == |ms| then old(ctrl.pending) - {tag} else old(ctrl.pending)
    {
      assert ms[..i + 1] == ms[..i] + [ms[i]];
      var done := ctrl.ProcessReply(ms[i]);
      var item := ctrl.TakeFrom(n);
      items := items + [item];
    }
    assert ms[..|ms|] == ms;
  }

  /** The call `|was.issued|` is pending, and nothing else has changed. */
  ghost predicate Begun(was: Flow.Client, now: Flow.Client) {
    var n := |was.issued|;
    && |now.issued| == n + 1 && now.issued[n].tag == Flow.TagOf(n)
    && now.futures == was.futures + [Flow.Future([], 0, false)]
    && now.pending == was.pending[Flow.TagOf(n) := n] && now.phase == was.phase
  }

  /** Request towards the next controller, where the message arrives as an object of its
      own: the same call under another tag. */
  method Forward(ctrl: StreamController, msg: Message, md: Metadata) returns (n: nat, received: Message)
    requires ctrl.Valid() && msg.content.Request?
    modifies ctrl, msg
    ensures ctrl.Valid() && n == |old(ctrl.issued)| && Begun(old(ctrl.State()), ctrl.State())
    ensures fresh(received) && received.content == msg.content && received.tag == Flow.TagOf(n)
    ensures CallOf(received.Value()) == CallOf(old(msg.Value())).(metadata := md)
  {
    n := ctrl.Request(msg, md);
    received := new Message(msg.Value());
    MetadataRoundTrip(md);
  }

  method Finish(ctrl: StreamController, n: nat, ms: seq<RPC>, ghost was: Flow.Client) returns (items: seq<RPC>)
    requires ctrl.Valid() && |was.issued| == |was.futures| == n && Begun(was, ctrl.State())
    requires Flow.Script(ms) && Flow.Terminated(ms) && Flow.Under(ms, Flow.TagOf(n))
    modifies ctrl
    ensures ctrl.Valid() && items == ms
    ensures Carried(was, ctrl.State(), ms) && UsedOnce(false, was, ctrl.State())
  {
    items := Deliver(ctrl, n, ms);
    assert ctrl.futures == was.futures + [Flow.Future(ms, |ms|, true)];
    assert Carried(was, ctrl.State(), ms);
  }

  // ---------------------------------------------------------------- unary calls

  /** The controller at `ctrls[k]` handles a request; the last one has the handler.
      The originator observes the handler's own outcome under its own tag, the handler
      is called exactly once with the request and metadata the originator sent, and
      every relay has used one tag.  `outgoing[k]` is the outgoing metadata of the worker's
      context at `ctrls[k]`. */
  method RelayUnary(ctrls: seq<StreamController>, outgoing: seq<Metadata>, k: nat, msg: Message, handler: Call -> Outcome)
    returns (reply: RPC, calls: seq<Call>)
    requires k < |ctrls| == |outgoing| && Distinct(ctrls) && AllValid(ctrls, k) && msg.content.Request?
    modifies msg, ctrls[k..]
    ensures reply.tag == old(msg.tag) && reply.content.Reply?
    ensures Observe(reply.content.response) == Dispatch.Settle(handler(CallOf(old(msg.Value()))))
    ensures calls == [CallOf(old(msg.Value()))]
    ensures AllValid(ctrls, k)
    ensures forall i :: k <= i < |ctrls| ==> UsedOnce(i == |ctrls| - 1, old(ctrls[i].State()), ctrls[i].State())
    decreases |ctrls| - k
  {
    var requestTag, md := msg.tag, ToMD(msg.metadata);
    var outcome;
    if k == |ctrls| - 1 {
      calls := [CallOf(msg.Value())];
      outcome := handler(calls[0]);
    } else {
      ghost var was := ctrls[k].State();
      var n, received := Forward(ctrls[k], msg, md);
      var answer;
      answer, calls := RelayUnary(ctrls, outgoing, k + 1, received, handler);
      var items := Finish(ctrls[k], n, [answer], was);
      outcome := Observe(items[0].content.response);
    }
    reply := Dispatch.Answer(requestTag, outcome, outgoing[k]);
  }

  /** So, when a client makes a unary call through any number of relays, it gets what the
      handler returns when called directly, in a future that holds that answer alone. */
  method CallUnary(client: StreamController, ctrls: seq<StreamController>, outgoing: seq<Metadata>,
                   msg: Message, md: Metadata, handler: Call -> Outcome)
    returns (n: nat, outcome: Outcome, calls: seq<Call>)
    requires 0 < |ctrls| == |outgoing| && Distinct(ctrls) && client !in ctrls
    requires client.Valid() && AllValid(ctrls, 0) && msg.content.Request?
    modifies client, msg, ctrls
    ensures var call := CallOf(old(msg.Value()).(metadata := FromMD(md)));
      && calls == [call] == [Call(msg.serviceName, msg.methodName, msg.content.request, md)]
      && outcome == (if handler(call).Failed? && handler(call).status.code == OK then Done([]) else handler(call))
    ensures n == old(|client.issued|) && UsedOnce(false, old(client.State()), client.State())
    ensures |client.futures| == n + 1 && |client.futures[n].delivered| == 1
    ensures forall i :: 0 <= i < |ctrls| ==> UsedOnce(i == |ctrls| - 1, old(ctrls[i].State()), ctrls[i].State())
  {
    ghost var was := client.State();
    MetadataRoundTrip(md);
    var received;
    n, received := Forward(client, msg, md);
    var answer;
    answer, calls := RelayUnary(ctrls, outgoing, 0, received, handler);
    var items := Finish(client, n, [answer], was);
    outcome := Observe(items[0].content.response);
  }

  // ---------------------------------------------------------------- server streams

  /** A handler's run: what it passed to SendMsg (or SendHeader), the error it returned,
      and the trailers it set. */
  datatype StreamRun = StreamRun(msgs: seq<ServerStreamMessage>, err: Option<Status>, trailers: Option<Metadata>)

  function RunStatus(run: StreamRun): Status {
    match run.err
    case None => Status(OK, "OK")
    case Some(s) => s
  }

  function TrailersMD(run: StreamRun): Metadata {
    match run.trailers
    case None => map[]
    case Some(md) => md
  }

  /** What the local invoker writes to its channel before closing it. */
  function LocalItems(run: StreamRun): seq<RPC> {
    seq(|run.msgs|, i requires 0 <= i < |run.msgs| => StreamReply(0, run.msgs[i]))
    + [RPC(0, "", "", Reply(Response([], Some(RunStatus(run)))), WireMD(run.trailers))]
  }

  /** The terminal message the originator must get. */
  function Terminal(tag: Tag, run: StreamRun): RPC {
    if RunStatus(run).code == OK then OkReply(tag, [], TrailersMD(run))
    else ErrReply(tag, Some(RunStatus(run)), TrailersMD(run))
  }

  function Expected(tag: Tag, run: StreamRun): seq<RPC> {
    Dispatch.StreamReplies(tag, run.msgs) + [Terminal(tag, run)]
  }

  /** What the originator must see of a run: the handler's own messages in order, then one
      response that reads as the handler's error, or as an empty success, and carries its
      trailers, all under one tag. */
  predicate IsStreamOf(ms: seq<RPC>, tag: Tag, run: StreamRun) {
    && |ms| == |run.msgs| + 1 && (forall i :: 0 <= i < |ms| ==> ms[i].tag == tag)
    && (forall i :: 0 <= i < |run.msgs| ==> ms[i].content == StreamMsg(run.msgs[i]))
    && var last := ms[|run.msgs|];
       && last.content.Reply?
       && Observe(last.content.response) ==
            (if run.err.Some? && run.err.value.code != OK then Failed(run.err.value) else Done([]))
       && ToMD(last.metadata) == if run.trailers.Some? then run.trailers.value else map[]
  }

  lemma ExpectedIsStream(tag: Tag, run: StreamRun)
    ensures IsStreamOf(Expected(tag, run), tag, run)
  {
    MetadataRoundTrip(TrailersMD(run));
  }

  /** The forwarding goroutine of InvokeStream copies its future to the channel up to the
      terminal response, then closes the channel.  On a future that was closed before a
      response it would dereference nil.  If its context ends after `cancelAt` messages, it
      stops there. */
  method CopyFuture(delivered: seq<RPC>, cancelAt: Option<nat>) returns (items: seq<RPC>)
    requires Flow.Script(delivered) && Flow.Terminated(delivered)
    ensures items == if cancelAt.Some? && cancelAt.value < |delivered| then delivered[..cancelAt.value] else delivered
  {
    items := [];
    var i := 0;
    while true
      invariant 0 <= i < |delivered| && items == delivered[..i]
      invariant cancelAt.Some? ==> i <= cancelAt.value
      decreases |delivered| - i
    {
      if cancelAt == Some(i) {
        return;
      }
      items := items + [delivered[i]];
      if delivered[i].content.Reply? {
        assert i == |delivered| - 1;
        return;
      }
      i := i + 1;
    }
  }

  lemma {:induction false} PumpParts(xs: seq<RPC>, msgs: seq<ServerStreamMessage>)
    requires |xs| == |msgs| && forall i :: 0 <= i < |xs| ==> xs[i].content == StreamMsg(msgs[i])
    ensures Dispatch.StreamMsgs(xs) == msgs && Dispatch.LastResponse(xs).None?
  {
    if xs != [] {
      var k := |xs| - 1;
      PumpParts(xs[..k], msgs[..k]);
      assert msgs == msgs[..k] + [msgs[k]];
    }
  }

  /** Pumping stream messages followed by one response keeps both, in order. */
  lemma PumpKeepsStream(tag: Tag, xs: seq<RPC>, last: RPC, msgs: seq<ServerStreamMessage>)
    requires |xs| == |msgs| && forall i :: 0 <= i < |xs| ==> xs[i].content == StreamMsg(msgs[i])
    requires last.content.Reply?
    ensures Dispatch.Pumped(tag, xs + [last], None) == Dispatch.StreamReplies(tag, msgs) + [Dispatch.ExitReply(tag, last)]
  {
    var items := xs + [last];
    assert items[..|items| - 1] == xs;
    PumpParts(xs, msgs);
  }

  lemma LocalStreamIsExpected(tag: Tag, run: StreamRun)
    ensures Dispatch.Pumped(tag, LocalItems(run), None) == Expected(tag, run)
    ensures IsStreamOf(Dispatch.Pumped(tag, LocalItems(run), None), tag, run)
  {
    ExpectedIsStream(tag, run);
    var items := LocalItems(run);
    var k := |run.msgs|;
    assert items == items[..k] + [items[k]];
    PumpKeepsStream(tag, items[..k], items[k], run.msgs);
    if run.trailers.Some? {
      MetadataRoundTrip(run.trailers.value);
    }
  }

  /** One more relay makes no difference. */
  lemma RelayedStreamIsExpected(tag: Tag, other: Tag, run: StreamRun)
    ensures Dispatch.Pumped(tag, Expected(other, run), None) == Expected(tag, run)
    ensures IsStreamOf(Dispatch.Pumped(tag, Expected(other, run), None), tag, run)
    ensures Flow.Script(Expected(tag, run)) && Flow.Terminated(Expected(tag, run)) && Flow.Under(Expected(tag, run), tag)
  {
    ExpectedIsStream(tag, run);
    PumpKeepsStream(tag, Dispatch.StreamReplies(other, run.msgs), Terminal(other, run), run.msgs);
    MetadataRoundTrip(TrailersMD(run));
  }

  /** What the controller at `ctrls[k]` reads from the channel of the stream: the handler's
      own messages at the last controller, a copy of the future at a relay. */
  method RelayItems(ctrls: seq<StreamController>, outgoing: seq<Metadata>, k: nat, msg: Message, md: Metadata, handler: Call -> StreamRun)
    returns (items: seq<RPC>, calls: seq<Call>)
    requires k < |ctrls| == |outgoing| && Distinct(ctrls) && AllValid(ctrls, k) && msg.content.Request? && md == ToMD(msg.metadata)
    modifies msg, ctrls[k..]
    ensures var run := handler(CallOf(old(msg.Value()))); items == LocalItems(run) || exists tag :: items == Expected(tag, run)
    ensures calls == [CallOf(old(msg.Value()))]
    ensures AllValid(ctrls, k)
    ensures forall i :: k <= i < |ctrls| ==> UsedOnce(i == |ctrls| - 1, old(ctrls[i].State()), ctrls[i].State())
    decreases |ctrls| - k, 1
  {
    if k == |ctrls| - 1 {
      calls := [CallOf(msg.Value())];
      items := LocalItems(handler(calls[0]));
    } else {
      ghost var tag;
      items, calls, tag := ForwardStream(ctrls, outgoing, k, msg, md, handler);
    }
  }

  /** A relay makes the call on its own stream, and copies what arrives. */
  method ForwardStream(ctrls: seq<StreamController>, outgoing: seq<Metadata>, k: nat, msg: Message, md: Metadata, handler: Call -> StreamRun)
    returns (items: seq<RPC>, calls: seq<Call>, ghost tag: Tag)
    requires k < |ctrls| - 1 && |ctrls| == |outgoing| && Distinct(ctrls) && AllValid(ctrls, k) && msg.content.Request? && md == ToMD(msg.metadata)
    modifies msg, ctrls[k..]
    ensures items == Expected(tag, handler(CallOf(old(msg.Value()))))
    ensures calls == [CallOf(old(msg.Value()))]
    ensures AllValid(ctrls, k)
    ensures forall i :: k <= i < |ctrls| ==> UsedOnce(i == |ctrls| - 1, old(ctrls[i].State()), ctrls[i].State())
    decreases |ctrls| - k, 0
  {
    ghost var was, call := ctrls[k].State(), CallOf(msg.Value());
    var n, received := Forward(ctrls[k], msg, md);
    tag := received.tag;
    var arriving;
    arriving, calls := RelayStream(ctrls, outgoing, k + 1, received, handler);
    RelayedStreamIsExpected(tag, tag, handler(call));
    var delivered := Finish(ctrls[k], n, arriving, was);
    items := CopyFuture(delivered, None);
  }

  /** Whatever the number of relays, the worker at the first one sends the handler's
      messages in order, then exactly one terminal response with the handler's status and
      trailers, all under the originator's tag. */
  method RelayStream(ctrls: seq<StreamController>, outgoing: seq<Metadata>, k: nat, msg: Message, handler: Call -> StreamRun)
    returns (sent: seq<RPC>, calls: seq<Call>)
    requires k < |ctrls| == |outgoing| && Distinct(ctrls) && AllValid(ctrls, k) && msg.content.Request?
    modifies msg, ctrls[k..]
    ensures sent == Expected(old(msg.tag), handler(CallOf(old(msg.Value()))))
    ensures IsStreamOf(sent, old(msg.tag), handler(CallOf(old(msg.Value()))))
    ensures calls == [CallOf(old(msg.Value()))]
    ensures AllValid(ctrls, k)
    ensures forall i :: k <= i < |ctrls| ==> UsedOnce(i == |ctrls| - 1, old(ctrls[i].State()), ctrls[i].State())
    decreases |ctrls| - k, 2
  {
    var requestTag := msg.tag;
    ghost var run := handler(CallOf(msg.Value()));
    var items;
    items, calls := RelayItems(ctrls, outgoing, k, msg, ToMD(msg.metadata), handler);
    if items == LocalItems(run) {
      LocalStreamIsExpected(requestTag, run);
    } else {
      var tag :| items == Expected(tag, run);
      RelayedStreamIsExpected(requestTag, tag, run);
    }
    sent := Dispatch.PumpReplies(requestTag, items, None);
    ExpectedIsStream(requestTag, run);
  }

  /** So, when a client's call goes through any number of relays, its own future receives
      exactly that, and is then closed. */
  method CallStream(client: StreamController, ctrls: seq<StreamController>, outgoing: seq<Metadata>,
                    msg: Message, md: Metadata, handler: Call -> StreamRun)
    returns (n: nat, read: seq<RPC>, calls: seq<Call>)
    requires 0 < |ctrls| == |outgoing| && Distinct(ctrls) && client !in ctrls
    requires client.Valid() && AllValid(ctrls, 0) && msg.content.Request?
    modifies client, msg, ctrls
    ensures var run := handler(CallOf(old(msg.Value()).(metadata := FromMD(md))));
      && n == old(|client.issued|) && n < |client.futures|
      && read == Expected(Flow.TagOf(n), run) && IsStreamOf(read, Flow.TagOf(n), run)
      && client.futures[n] == Flow.Future(read, |read|, true)
    ensures calls == [CallOf(old(msg.Value()).(metadata := FromMD(md)))]
      == [Call(msg.serviceName, msg.methodName, msg.content.request, md)]
    ensures forall i :: 0 <= i < |ctrls| ==> UsedOnce(i == |ctrls| - 1, old(ctrls[i].State()), ctrls[i].State())
  {
    ghost var call := CallOf(msg.Value().(metadata := FromMD(md)));
    ghost var was := client.State();
    MetadataRoundTrip(md);
    var received;
    n, received := Forward(client, msg, md);
    var arriving;
    arriving, calls := RelayStream(ctrls, outgoing, 0, received, handler);
    RelayedStreamIsExpected(Flow.TagOf(n), Flow.TagOf(n), handler(call));
    read := Finish(client, n, arriving, was);
    ExpectedIsStream(Flow.TagOf(n), handler(call));
  }

  // ---------------------------------------------------------------- in any run

  /** One stream of a chain and the call on it: `n` of the endpoint `side` of a pair. */
  datatype Leg = Leg(p: Duplex.Pair, side: Duplex.Side, n: nat)

  function Client(leg: Leg): Flow.Client { leg.p.At(leg.side).client }

  /** The call was answered, and all of the answer has arrived before any drain; whatever else
      went on in the pair, this is one of its states. */
  ghost predicate Finished(leg: Leg) {
    && Duplex.Reached(leg.p) && leg.n < |Client(leg).issued| && leg.n !in Client(leg).drained
    && Flow.Terminated(Sent(leg)) && Flow.InFlight(Duplex.Keep(leg.p.At(Duplex.Other(leg.side)).out, false), leg.n) == []
  }

  function RequestOf(leg: Leg): RPC
    requires leg.n < |Client(leg).issued|
  {
    Client(leg).issued[leg.n]
  }

  /** What the peer's worker sent for the call. */
  function Sent(leg: Leg): seq<RPC> { Flow.Emitted(leg.p.At(Duplex.Other(leg.side)).server, leg.n) }

  function Received(leg: Leg): seq<RPC> {
    if leg.n < |Client(leg).futures| then Client(leg).futures[leg.n].delivered else []
  }

  predicate IsClosed(leg: Leg) { leg.n < |Client(leg).futures| && Client(leg).futures[leg.n].closed }

  /** In any run of two endpoints, whatever else is going on: an answer that was sent and has
      arrived is the whole history of the call's future, which is closed, unless the drain
      got there first. */
  lemma AnswerArrives(leg: Leg)
    requires Finished(leg)
    ensures Received(leg) == Sent(leg) && IsClosed(leg) && RequestOf(leg).content.Request?
    ensures Flow.Under(Sent(leg), RequestOf(leg).tag)
  {
    DuplexTheorems.RepliesArriveInOrder(leg.p, leg.side, leg.n);
    DuplexTheorems.FutureHistory(leg.p, leg.side, leg.n);
    DuplexTheorems.RequestIsRequest(leg.p, leg.side, leg.n);
    assert Received(leg) + [] == Received(leg);
  }

  /** The relay at the end of `leg` made the same call on `next`, and waited for its end. */
  ghost predicate Passes(leg: Leg, next: Leg) {
    && Finished(leg) && Finished(next) && RequestOf(leg).content.Request? && RequestOf(next).content.Request?
    && CallOf(RequestOf(next)) == CallOf(RequestOf(leg))
  }

  /** Link `i` of a chain of legs, each in a pair and a run of its own: the worker at its end
      pumped what it read from the next leg's future, and the last one what the handler's
      own stream left in its channel. */
  ghost predicate StreamLink(legs: seq<Leg>, handler: Call -> StreamRun, i: nat)
    requires i < |legs|
  {
    && Finished(legs[i]) && RequestOf(legs[i]).content.Request?
    && if i == |legs| - 1 then
         Sent(legs[i]) == Dispatch.Pumped(RequestOf(legs[i]).tag, LocalItems(handler(CallOf(RequestOf(legs[i])))), None)
       else
         Passes(legs[i], legs[i + 1]) && Sent(legs[i]) == Dispatch.Pumped(RequestOf(legs[i]).tag, Received(legs[i + 1]), None)
  }

  /** The call is the one that the message makes. */
  predicate Carries(call: Call, m: RPC)
    requires m.content.Request?
  {
    && call.serviceName == m.serviceName && call.methodName == m.methodName
    && call.request == m.content.request && call.metadata == ToMD(m.metadata)
  }

  /** A leg's future has all of the handler's stream, under the leg's own tag. */
  ghost predicate HasStream(leg: Leg, handler: Call -> StreamRun, call: Call) {
    && leg.n < |Client(leg).issued| && RequestOf(leg).content.Request? && CallOf(RequestOf(leg)) == call
    && Received(leg) == Expected(RequestOf(leg).tag, handler(call)) && IsClosed(leg)
    && IsStreamOf(Received(leg), RequestOf(leg).tag, handler(call)) && Carries(call, RequestOf(leg))
  }

  /** Through any number of relays, whatever else goes on at each of them: the handler is
      called with the originator's call, and the future of every leg, the originator's
      included, gets the handler's messages in order and one terminal response, and is closed. */
  lemma {:induction false} StreamPassesRelays(legs: seq<Leg>, handler: Call -> StreamRun, i: nat) returns (call: Call)
    requires i < |legs| && forall k :: 0 <= k < |legs| ==> StreamLink(legs, handler, k)
    ensures HasStream(legs[i], handler, call) && HasStream(legs[|legs| - 1], handler, call)
    decreases |legs| - i
  {
    var leg := legs[i];
    assert StreamLink(legs, handler, i);
    AnswerArrives(leg);
    if i == |legs| - 1 {
      call := CallOf(RequestOf(leg));
      LocalStreamIsExpected(RequestOf(leg).tag, handler(call));
    } else {
      call := StreamPassesRelays(legs, handler, i + 1);
      RelayedStreamIsExpected(RequestOf(leg).tag, RequestOf(legs[i + 1]).tag, handler(call));
    }
  }

  /** The same for a unary call: the worker answers with what the handler returned, or with
      what it observed of the next leg's answer. */
  ghost predicate UnaryLink(legs: seq<Leg>, handler: Call -> Outcome, i: nat)
    requires i < |legs|
  {
    && Finished(legs[i]) && RequestOf(legs[i]).content.Request?
    && if i == |legs| - 1 then
         Answered(legs[i], handler(CallOf(RequestOf(legs[i]))))
       else
         && Passes(legs[i], legs[i + 1]) && Received(legs[i + 1]) != [] && Received(legs[i + 1])[0].content.Reply?
         && Answered(legs[i], Observe(Received(legs[i + 1])[0].content.response))
  }

  ghost predicate Answered(leg: Leg, outcome: Outcome)
    requires leg.n < |Client(leg).issued|
  {
    exists outgoing :: Sent(leg) == [Dispatch.Answer(RequestOf(leg).tag, outcome, outgoing)]
  }

  ghost predicate HasAnswer(leg: Leg, handler: Call -> Outcome, call: Call) {
    && leg.n < |Client(leg).issued| && RequestOf(leg).content.Request? && CallOf(RequestOf(leg)) == call
    && |Received(leg)| == 1 && Received(leg)[0].tag == RequestOf(leg).tag && Received(leg)[0].content.Reply?
    && Observe(Received(leg)[0].content.response)
       == (if handler(call).Failed? && handler(call).status.code == OK then Done([]) else handler(call))
    && IsClosed(leg) && Carries(call, RequestOf(leg))
  }

  lemma {:induction false} AnswerPassesRelays(legs: seq<Leg>, handler: Call -> Outcome, i: nat) returns (call: Call)
    requires i < |legs| && forall k :: 0 <= k < |legs| ==> UnaryLink(legs, handler, k)
    ensures HasAnswer(legs[i], handler, call) && HasAnswer(legs[|legs| - 1], handler, call)
    decreases |legs| - i
  {
    assert UnaryLink(legs, handler, i);
    AnswerArrives(legs[i]);
    if i == |legs| - 1 {
      call := CallOf(RequestOf(legs[i]));
    } else {
      call := AnswerPassesRelays(legs, handler, i + 1);
    }
  }
}
