/** handleRequest: what a worker does with one request, and what it puts on the wire. */
module Dispatch {
  import opened Messages
  import opened Registry
  import Flow

  /** What InvokeStream does: refuse, or write items to the channel and close it.
      `cancelAt` is the number of items read when the worker sees its context end. */
  datatype StreamOutcome =
    | Refused(status: Status)
    | Channel(items: seq<RPC>, cancelAt: Option<nat>)

  /** The world outside the worker, as far as it answers. */
  datatype Env = Env(
    unary: (Invoker, RPC) -> Outcome,
    stream: (Invoker, RPC) -> StreamOutcome,
    nextTag: (Invoker, RPC) -> Tag)   // the tag the next controller assigns

  /** The handler list is read four times, and it may change in between. */
  datatype Reads = Reads(found: bool, len: nat, first: Option<Handler>, lenAgain: nat, snapshot: seq<Handler>)

  /** What other goroutines do to the list while a worker handles a request: before each
      of its reads, and before each call of the broadcast callback. */
  datatype Meddling = Meddling(beforeLen: seq<ListOp>, beforeFirst: seq<ListOp>, beforeLenAgain: seq<ListOp>,
                               beforeRange: seq<ListOp>, between: nat -> seq<ListOp>)

  /** What the four reads see of a list that starts as `data`. */
  function Reading(data: seq<Handler>, m: Meddling): Reads {
    var atLen := Changed(data, m.beforeLen);
    var atFirst := Changed(atLen, m.beforeFirst);
    var atLenAgain := Changed(atFirst, m.beforeLenAgain);
    Reads(true, |atLen|, FirstOf(atFirst), |atLenAgain|, Changed(atLenAgain, m.beforeRange))
  }

  const NO_LIST := Reads(false, 0, None, 0, [])

  ghost predicate AllBuilt(hs: seq<Handler>) { forall i :: 0 <= i < |hs| ==> Built(hs[i]) }

  ghost predicate AppendsBuilt(ops: seq<ListOp>) {
    forall i :: 0 <= i < |ops| && ops[i].Appended? ==> Built(ops[i].h)
  }

  lemma ChangeIsBuilt(data: seq<Handler>, op: ListOp)
    requires AllBuilt(data) && (op.Appended? ==> Built(op.h))
    ensures AllBuilt(Change(data, op))
  {
    var after := Change(data, op);
    if op.Expired? {
      forall i | 0 <= i < |after| ensures Built(after[i]) {
        assert after[i] in data;
      }
    }
  }

  lemma {:induction false} ChangedIsBuilt(data: seq<Handler>, ops: seq<ListOp>, k: nat)
    requires AllBuilt(data) && AppendsBuilt(ops) && k <= |ops|
    ensures AllBuilt(ChangedTo(data, ops, k))
  {
    if k > 0 {
      ChangedIsBuilt(data, ops, k - 1);
      ChangeIsBuilt(ChangedTo(data, ops, k - 1), ops[k - 1]);
    }
  }

  datatype Invocation = Invocation(invoker: Invoker, rpc: RPC)

  // ---------------------------------------------------------------- the stream loop

  function StreamMsgs(items: seq<RPC>): seq<ServerStreamMessage> {
    if items == [] then []
    else
      var init := StreamMsgs(items[..|items| - 1]);
      var last := items[|items| - 1].content;
      if last.StreamMsg? then init + [last.msg] else init
  }

  function LastResponse(items: seq<RPC>): Option<RPC> {
    if items == [] then None
    else if items[|items| - 1].content.Reply? then Some(items[|items| - 1])
    else LastResponse(items[..|items| - 1])
  }

  function StreamReplies(tag: Tag, msgs: seq<ServerStreamMessage>): seq<RPC> {
    seq(|msgs|, i requires 0 <= i < |msgs| => StreamReply(tag, msgs[i]))
  }

  /** The reply made of the response that the handler exited with; its metadata are
      the trailers. */
  function ExitReply(tag: Tag, exit: RPC): RPC
    requires exit.content.Reply?
  {
    match Observe(exit.content.response)
    case Done(data) => OkReply(tag, data, ToMD(exit.metadata))
    case Failed(stat) => ErrReply(tag, Some(stat), ToMD(exit.metadata))
  }

  lemma {:induction false} LastResponseIsReply(items: seq<RPC>)
    ensures LastResponse(items).Some? ==> LastResponse(items).value.content.Reply?
  {
    if items != [] && !items[|items| - 1].content.Reply? {
      LastResponseIsReply(items[..|items| - 1]);
    }
  }

  /** Stream messages go out as they come, also behind the exit response, which is
      held back until the channel is closed and is then the last message.  A cancelled
      worker sends nothing more. */
  function Pumped(tag: Tag, items: seq<RPC>, cancelAt: Option<nat>): seq<RPC> {
    if cancelAt.Some? && cancelAt.value <= |items| then
      StreamReplies(tag, StreamMsgs(items[..cancelAt.value]))
    else
      LastResponseIsReply(items);
      var exit := LastResponse(items);
      StreamReplies(tag, StreamMsgs(items)) + if exit.Some? then [ExitReply(tag, exit.value)] else []
  }

  /** At most one terminal message, and it is the last; there is one exactly when the
      channel carried a response and the worker was not cancelled before its end. */
  lemma PumpedIsScript(tag: Tag, items: seq<RPC>, cancelAt: Option<nat>)
    ensures Flow.Script(Pumped(tag, items, cancelAt))
    ensures Flow.Terminated(Pumped(tag, items, cancelAt)) <==>
      LastResponse(items).Some? && (cancelAt.Some? ==> cancelAt.value > |items|)
    ensures forall i :: 0 <= i < |Pumped(tag, items, cancelAt)| ==> Pumped(tag, items, cancelAt)[i].tag == tag
  {
    LastResponseIsReply(items);
  }

  /** Of the first `n` items, `at` are the stream messages, in order. */
  predicate StreamPositions(items: seq<RPC>, n: nat, at: seq<nat>)
    requires n <= |items|
  {
    && (forall i :: 0 <= i < |at| ==> at[i] < n && items[at[i]].content.StreamMsg?)
    && (forall i, j :: 0 <= i < j < |at| ==> at[i] < at[j])
    && (forall j :: 0 <= j < n && items[j].content.StreamMsg? ==> j in at)
  }

  /** The last of the responses is item `j`, or there is none. */
  predicate LastReplyAt(items: seq<RPC>, j: Option<nat>) {
    match j
    case None => forall i :: 0 <= i < |items| ==> !items[i].content.Reply?
    case Some(k) => k < |items| && items[k].content.Reply? && forall i :: k < i < |items| ==> !items[i].content.Reply?
  }

  /** How many items the worker reads. */
  function ReadItems(items: seq<RPC>, cancelAt: Option<nat>): (n: nat)
    ensures n <= |items|
  {
    if cancelAt.Some? && cancelAt.value <= |items| then cancelAt.value else |items|
  }

  /** A response reads the same, status, payload and metadata. */
  predicate ReadsLike(a: RPC, b: RPC) {
    && a.content.Reply? && b.content.Reply?
    && Observe(a.content.response) == Observe(b.content.response) && ToMD(a.metadata) == ToMD(b.metadata)
  }

  /** What is sent has the contents of the stream messages that were read, in order, and
      then, if the channel was read to its end, the last response, all under `tag`. */
  ghost predicate PassedOn(tag: Tag, items: seq<RPC>, cancelAt: Option<nat>, sent: seq<RPC>, at: seq<nat>) {
    && StreamPositions(items, ReadItems(items, cancelAt), at)
    && |at| <= |sent| && (forall i :: 0 <= i < |at| ==> sent[i].content == items[at[i]].content)
    && (forall i :: 0 <= i < |sent| ==> sent[i].tag == tag)
    && (if cancelAt.Some? && cancelAt.value <= |items| then |sent| == |at| else EndsLike(items, sent[|at|..]))
  }

  /** `end` is the last response, or nothing if there is none. */
  ghost predicate EndsLike(items: seq<RPC>, end: seq<RPC>) {
    || (LastReplyAt(items, None) && end == [])
    || exists j: nat :: LastReplyAt(items, Some(j)) && |end| == 1 && ReadsLike(end[0], items[j])
  }

  lemma {:induction false} FindStreamMsgs(items: seq<RPC>, n: nat) returns (at: seq<nat>)
    requires n <= |items|
    ensures StreamPositions(items, n, at) && |at| == |StreamMsgs(items[..n])|
    ensures forall i :: 0 <= i < |at| ==> items[at[i]].content == StreamMsg(StreamMsgs(items[..n])[i])
  {
    if n == 0 {
      at := [];
    } else {
      var before := FindStreamMsgs(items, n - 1);
      assert items[..n][..n - 1] == items[..n - 1];
      at := OneMorePosition(items, n - 1, before);
    }
  }

  lemma OneMorePosition(items: seq<RPC>, n: nat, before: seq<nat>) returns (at: seq<nat>)
    requires n < |items| && StreamPositions(items, n, before)
    ensures at == (if items[n].content.StreamMsg? then before + [n] else before) && StreamPositions(items, n + 1, at)
  {
    at := if items[n].content.StreamMsg? then before + [n] else before;
    forall j | 0 <= j <= n && items[j].content.StreamMsg? ensures j in at {
      assert j < n ==> j in before;
      assert j == n ==> at[|before|] == n;
    }
  }

  lemma {:induction false} FindLastReply(items: seq<RPC>) returns (j: Option<nat>)
    ensures LastReplyAt(items, j) && LastResponse(items) == if j.None? then None else Some(items[j.value])
  {
    if items == [] {
      j := None;
    } else if items[|items| - 1].content.Reply? {
      j := Some(|items| - 1);
    } else {
      j := FindLastReply(items[..|items| - 1]);
    }
  }

  lemma ExitReadsLike(tag: Tag, exit: RPC)
    requires exit.content.Reply?
    ensures ReadsLike(ExitReply(tag, exit), exit)
  {
    MetadataRoundTrip(ToMD(exit.metadata));
  }

  lemma PumpedIsPassedOn(tag: Tag, items: seq<RPC>, cancelAt: Option<nat>) returns (at: seq<nat>)
    ensures PassedOn(tag, items, cancelAt, Pumped(tag, items, cancelAt), at)
  {
    at := FindStreamMsgs(items, ReadItems(items, cancelAt));
    assert items[..|items|] == items;
    var j := FindLastReply(items);
    if j.Some? {
      ExitReadsLike(tag, items[j.value]);
    }
  }

  /** The part of handleRequest that reads the response channel. */
  method PumpReplies(tag: Tag, items: seq<RPC>, cancelAt: Option<nat>) returns (sent: seq<RPC>)
    ensures sent == Pumped(tag, items, cancelAt)
    ensures exists at :: PassedOn(tag, items, cancelAt, sent, at)
  {
    sent := PumpLoop(tag, items, cancelAt);
    ghost var at := PumpedIsPassedOn(tag, items, cancelAt);
  }

  /** Its loop. */
  method PumpLoop(tag: Tag, items: seq<RPC>, cancelAt: Option<nat>) returns (sent: seq<RPC>)
    ensures sent == Pumped(tag, items, cancelAt)
  {
    sent := [];
    var exit: Option<RPC> := None;
    for i := 0 to |items|
      invariant sent == StreamReplies(tag, StreamMsgs(items[..i]))
      invariant exit == LastResponse(items[..i])
      invariant exit.Some? ==> exit.value.content.Reply?
      invariant cancelAt.Some? ==> i <= cancelAt.value
    {
      if cancelAt == Some(i) {
        return;
      }
      assert items[..i + 1][..i] == items[..i];
      match items[i].content
      case Reply(_) => exit := Some(items[i]);
      case StreamMsg(msg) => sent := sent + [StreamReply(tag, msg)];
      case _ =>
    }
    assert items[..|items|] == items;
    if cancelAt == Some(|items|) {
      return;
    }
    if exit.Some? {
      sent := sent + [ExitReply(tag, exit.value)];
    }
  }

  // ---------------------------------------------------------------- invoking

  /** Going out on another stream overwrites the message's metadata, from the context,
      and its tag; a local invocation leaves the message alone. */
  method Readdress(env: Env, invoker: Invoker, msg: Message, md: Metadata)
    modifies msg
    ensures invoker.LocalInvoker? ==> msg.Value() == old(msg.Value())
    ensures invoker.ControllerInvoker? ==> msg.metadata == FromMD(md) && msg.tag == env.nextTag(invoker, old(msg.Value()))
  {
    if invoker.ControllerInvoker? {
      var tag := env.nextTag(invoker, msg.Value());
      msg.metadata := FromMD(md);
      msg.tag := tag;
    }
  }

  /** The request as every handler must see it: same service, method and content, and
      metadata that read the same. */
  predicate SameRequest(a: RPC, b: RPC) {
    && a.serviceName == b.serviceName && a.methodName == b.methodName && a.content == b.content
    && ToMD(a.metadata) == ToMD(b.metadata)
  }

  /** `log` invokes the handlers of `hs`, each once, in order, all with this request. */
  ghost predicate InvokesInOrder(log: seq<Invocation>, hs: seq<Handler>, request: RPC) {
    && |log| == |hs|
    && forall i :: 0 <= i < |hs| ==>
      && request.methodName in hs[i].invokers
      && log[i].invoker == hs[i].invokers[request.methodName]
      && SameRequest(log[i].rpc, request)
  }

  predicate AllDefine(hs: seq<Handler>, name: string) {
    forall i :: 0 <= i < |hs| ==> name in hs[i].invokers
  }

  /** Range with the broadcast callback; it stops at a handler without the method.  The
      list may change under it, in place: the callback runs on a clone. */
  method Broadcasting(env: Env, list: ServiceHandlerList, between: nat -> seq<ListOp>, msg: Message, md: Metadata)
    returns (success: bool, log: seq<Invocation>)
    requires list.Valid() && md == ToMD(msg.metadata)
    modifies msg, list, list.data
    ensures list.Valid() && (list.data == old(list.data) || fresh(list.data))
    ensures success <==> AllDefine(old(list.Contents()), msg.methodName)
    ensures Reaches(log, old(list.Contents()), old(msg.Value()), success)
  {
    ghost var start := list.Contents();
    var clone := list.Clone();
    var n := clone.Length;
    log := [];
    MetadataRoundTrip(md);
    for i := 0 to n
      invariant list.Valid() && (list.data == old(list.data) || fresh(list.data)) && list.data != clone
      invariant clone[..] == start && |start| == n
      invariant |log| == i && InvokesInOrder(log, start[..i], old(msg.Value()))
      invariant AllDefine(start[..i], msg.methodName)
      invariant ToMD(msg.metadata) == md
    {
      list.Perform(between(i));
      var h := clone[i];
      assert h == clone[..][i] == start[i];
      if msg.methodName !in h.invokers {
        return false, log;
      }
      var invoker := h.invokers[msg.methodName];
      log := log + [Invocation(invoker, msg.Value())];
      Readdress(env, invoker, msg, md);   // the outcome of the call is ignored
      assert start[..i + 1] == start[..i] + [h];
    }
    assert start[..n] == start;
    success := true;
  }

  /** All handlers were invoked, or those before the first one without the method. */
  ghost predicate Reaches(log: seq<Invocation>, hs: seq<Handler>, request: RPC, success: bool) {
    && |log| <= |hs| && InvokesInOrder(log, hs[..|log|], request)
    && if success then |log| == |hs| else |log| < |hs| && request.methodName !in hs[|log|].invokers
  }

  // ---------------------------------------------------------------- handleRequest

  /** A method without an entry, in a table that was altered, reads as unary. */
  function InfoFor(h: Handler, name: string): MethodInfo {
    if name in h.info then h.info[name] else MethodInfo(false, false)
  }

  /** The branches of handleRequest. */
  datatype Branch = UnknownService | BroadcastAll | UnknownMethod | Unary | ServerStream | ClientStream

  function BranchFor(seen: Reads, name: string): Branch
  {
    if !seen.found || seen.len == 0 || seen.first.None? then UnknownService
    else
      var first := seen.first.value;
      if seen.lenAgain > 1 && name in first.qos && first.qos[name] == Broadcast then BroadcastAll
      else if name !in first.invokers then UnknownMethod
      else
        var info := InfoFor(first, name);
        if !info.isServerStream && !info.isClientStream then Unary
        else if info.isServerStream && !info.isClientStream then ServerStream
        else ClientStream
  }

  /** All handlers of the snapshot were invoked and a success was sent, or those before the
      first without the method, and a nil error was sent. */
  ghost predicate BroadcastDone(snapshot: seq<Handler>, request: RPC, outgoing: Metadata, sent: seq<RPC>, log: seq<Invocation>) {
    var ok := AllDefine(snapshot, request.methodName);
    && Reaches(log, snapshot, request, ok)
    && sent == [if ok then OkReply(request.tag, [], outgoing) else ErrReply(request.tag, None, outgoing)]
  }

  /** What the worker must have sent and invoked, branch by branch.  `final` is the
      message as the invocation left it. */
  ghost predicate Handled(seen: Reads, request: RPC, final: RPC, env: Env, outgoing: Metadata,
                          sent: seq<RPC>, log: seq<Invocation>)
  {
    var tag, name := request.tag, request.methodName;
    match BranchFor(seen, name)
    case UnknownService =>
      log == [] && sent == [ErrReply(tag, Some(Status(UNIMPLEMENTED, "unknown service: " + request.serviceName)), outgoing)]
    case UnknownMethod =>
      log == [] && sent == [ErrReply(tag, Some(Status(NOT_FOUND, "method " + name + " not found")), outgoing)]
    case BroadcastAll =>
      BroadcastDone(seen.snapshot, request, outgoing, sent, log)
    case Unary =>
      && InvokesInOrder(log, [seen.first.value], request)
      && sent == [Answer(tag, env.unary(log[0].invoker, final), outgoing)]
    case ServerStream =>
      && InvokesInOrder(log, [seen.first.value], request)
      && sent == Streamed(tag, env.stream(log[0].invoker, final), outgoing)
    case ClientStream =>
      log == [] && sent == []
  }

  /** The reply to a unary call, in one of two forms. */
  function Answer(tag: Tag, outcome: Outcome, outgoing: Metadata): (m: RPC)
    ensures m.tag == tag && m.content.Reply? && Observe(m.content.response) == Settle(outcome)
  {
    match outcome
    case Failed(status) => ErrReply(tag, Some(status), outgoing)
    case Done(data) => OkReply(tag, data, outgoing)
  }

  function Streamed(tag: Tag, outcome: StreamOutcome, outgoing: Metadata): seq<RPC> {
    match outcome
    case Refused(status) => [ErrReply(tag, Some(status), outgoing)]
    case Channel(items, cancelAt) => Pumped(tag, items, cancelAt)
  }

  method StreamTo(tag: Tag, outcome: StreamOutcome, outgoing: Metadata) returns (sent: seq<RPC>)
    ensures sent == Streamed(tag, outcome, outgoing)
    ensures Flow.Script(sent) && forall i :: 0 <= i < |sent| ==> sent[i].tag == tag
  {
    match outcome
    case Refused(status) => sent := [ErrReply(tag, Some(status), outgoing)];
    case Channel(items, cancelAt) =>
      sent := PumpReplies(tag, items, cancelAt);
      PumpedIsScript(tag, items, cancelAt);
  }

  /** The part of handleRequest that calls the first handler. */
  method InvokeFirst(first: Handler, msg: Message, env: Env, md: Metadata, outgoing: Metadata)
    returns (sent: seq<RPC>, log: seq<Invocation>)
    requires md == ToMD(msg.metadata)
    modifies msg
    ensures Handled(Reads(true, 1, Some(first), 1, []), old(msg.Value()), msg.Value(), env, outgoing, sent, log)
    ensures Flow.Script(sent) && forall i :: 0 <= i < |sent| ==> sent[i].tag == old(msg.tag)
  {
    var requestTag, name := msg.tag, msg.methodName;
    sent, log := [], [];
    if name !in first.invokers {
      sent := [ErrReply(requestTag, Some(Status(NOT_FOUND, "method " + name + " not found")), outgoing)];
      return;
    }
    var invoker, info := first.invokers[name], InfoFor(first, name);
    if !info.isServerStream && !info.isClientStream {
      log := [Invocation(invoker, msg.Value())];
      Readdress(env, invoker, msg, md);
      sent := [Answer(requestTag, env.unary(invoker, msg.Value()), outgoing)];
    } else if info.isServerStream && !info.isClientStream {
      log := [Invocation(invoker, msg.Value())];
      Readdress(env, invoker, msg, md);
      sent := StreamTo(requestTag, env.stream(invoker, msg.Value()), outgoing);
    }
  }

  /** The part of handleRequest that broadcasts. */
  method InvokeAll(list: ServiceHandlerList, m: Meddling, msg: Message, env: Env, md: Metadata, outgoing: Metadata)
    returns (sent: seq<RPC>, log: seq<Invocation>)
    requires list.Valid() && md == ToMD(msg.metadata)
    modifies msg, list, list.data
    ensures BroadcastDone(Changed(old(list.Contents()), m.beforeRange), old(msg.Value()), outgoing, sent, log)
  {
    var requestTag := msg.tag;
    list.Perform(m.beforeRange);
    var success;
    success, log := Broadcasting(env, list, m.between, msg, md);
    // the error built in the callback is shadowed: a nil error is replied
    sent := [if success then OkReply(requestTag, [], outgoing) else ErrReply(requestTag, None, outgoing)];
  }

  lemma AllTogether(seen: Reads, request: RPC, final: RPC, env: Env, outgoing: Metadata, sent: seq<RPC>, log: seq<Invocation>)
    requires BranchFor(seen, request.methodName).BroadcastAll?
    requires BroadcastDone(seen.snapshot, request, outgoing, sent, log)
    ensures Handled(seen, request, final, env, outgoing, sent, log)
    ensures Flow.Script(sent) && forall i :: 0 <= i < |sent| ==> sent[i].tag == request.tag
  {
  }

  /** Where nothing is broadcast, only the first handler matters. */
  lemma FirstAlone(seen: Reads, request: RPC, final: RPC, env: Env, outgoing: Metadata, sent: seq<RPC>, log: seq<Invocation>)
    requires seen.found && seen.len > 0 && seen.first.Some?
    requires !BranchFor(seen, request.methodName).BroadcastAll?
    requires Handled(Reads(true, 1, seen.first, 1, []), request, final, env, outgoing, sent, log)
    ensures Handled(seen, request, final, env, outgoing, sent, log)
  {
  }

  /** The reads of the list up to the point where the handler is chosen; `found` is None
      if the list was empty at either of the first two. */
  method LookUp(list: ServiceHandlerList, m: Meddling) returns (found: Option<Handler>, again: nat)
    requires list.Valid()
    modifies list, list.data
    ensures list.Valid() && (list.data == old(list.data) || fresh(list.data))
    ensures var seen := Reading(old(list.Contents()), m);
      && (found.None? <==> seen.len == 0 || seen.first.None?)
      && (found.Some? ==> found == seen.first && again == seen.lenAgain && Changed(list.Contents(), m.beforeRange) == seen.snapshot)
  {
    found, again := None, 0;
    list.Perform(m.beforeLen);
    var n := list.Len();
    if n > 0 {
      list.Perform(m.beforeFirst);
      found := list.GetFirst();
      if found.Some? {
        list.Perform(m.beforeLenAgain);
        again := list.Len();
      }
    }
  }

  /** handleRequest.  `list` is what looking up the service gave, `m` what happens to it
      meanwhile, and `outgoing` the outgoing metadata of the worker's context. */
  method HandleRequest(list: ServiceHandlerList?, m: Meddling, msg: Message, env: Env, outgoing: Metadata)
    returns (sent: seq<RPC>, log: seq<Invocation>)
    requires list != null ==> list.Valid()
    modifies msg, list, if list == null then {} else {list.data}
    ensures var seen := if list == null then NO_LIST else Reading(old(list.Contents()), m);
      Handled(seen, old(msg.Value()), msg.Value(), env, outgoing, sent, log)
    ensures Flow.Script(sent) && forall i :: 0 <= i < |sent| ==> sent[i].tag == old(msg.tag)
  {
    var requestTag, md, name := msg.tag, ToMD(msg.metadata), msg.methodName;
    sent, log := [], [];
    if list != null {
      ghost var seen, request := Reading(list.Contents(), m), msg.Value();
      var found, again := LookUp(list, m);
      if found.Some? {
        var first := found.value;
        if again > 1 && name in first.qos && first.qos[name] == Broadcast {
          sent, log := InvokeAll(list, m, msg, env, md, outgoing);
          AllTogether(seen, request, msg.Value(), env, outgoing, sent, log);
          return;
        }
        sent, log := InvokeFirst(first, msg, env, md, outgoing);
        FirstAlone(seen, request, msg.Value(), env, outgoing, sent, log);
        return;
      }
    }
    sent := [ErrReply(requestTag, Some(Status(UNIMPLEMENTED, "unknown service: " + msg.serviceName)), outgoing)];
  }

  /** An error that carries code OK reads as an empty success on the other side. */
  function Settle(o: Outcome): Outcome {
    if o.Failed? && o.status.code == OK then Done([]) else o
  }

  /** Exactly one terminal message goes out for unknown services, unknown methods,
      broadcasts and unary methods; none for a client-streaming method. */
  lemma TerminalCount(seen: Reads, request: RPC, final: RPC, env: Env, outgoing: Metadata,
                      sent: seq<RPC>, log: seq<Invocation>)
    requires Handled(seen, request, final, env, outgoing, sent, log)
    ensures match BranchFor(seen, request.methodName)
      case ServerStream =>
        Flow.Terminated(sent) <==>
          (match env.stream(seen.first.value.invokers[request.methodName], final)
           case Refused(_) => true
           case Channel(items, cancelAt) => LastResponse(items).Some? && (cancelAt.Some? ==> cancelAt.value > |items|))
      case ClientStream => sent == []
      case _ => |sent| == 1 && Flow.Terminated(sent)
  {
    if BranchFor(seen, request.methodName).ServerStream? {
      var outcome := env.stream(log[0].invoker, final);
      if outcome.Channel? {
        PumpedIsScript(request.tag, outcome.items, outcome.cancelAt);
      }
    }
  }

  // ---------------------------------------------------------------- what the descriptor says

  /** Nothing happens to the list while the request is handled. */
  const UNDISTURBED := Meddling([], [], [], [], _ => [])

  lemma ReadsWhatIsThere(hs: seq<Handler>)
    ensures Reading(hs, UNDISTURBED) == Reads(true, |hs|, FirstOf(hs), |hs|, hs)
    ensures hs != [] ==> FirstOf(hs) == Some(hs[0])
  {
  }

  /** The request is for method `m` of the service that the first handler, whose methods all
      go to `inv`, describes. */
  ghost predicate IsFor(seen: Reads, request: RPC, inv: Invoker, m: MethodDesc) {
    && seen.found && seen.len > 0 && seen.first.Some? && WellMade(seen.first.value, inv)
    && DistinctMethods(seen.first.value.descriptor) && m in seen.first.value.descriptor.methods && m.name == request.methodName
  }

  lemma TablesSay(h: Handler, inv: Invoker, m: MethodDesc)
    requires WellMade(h, inv) && DistinctMethods(h.descriptor) && m in h.descriptor.methods
    ensures m.name in h.invokers && h.invokers[m.name] == inv
    ensures InfoFor(h, m.name) == MethodInfo(m.clientStreaming, m.serverStreaming)
    ensures m.name in h.qos && h.qos[m.name] == Broadcast <==> m.qos == Some(Broadcast)
  {
    var i :| 0 <= i < |h.descriptor.methods| && h.descriptor.methods[i] == m;
    assert Repeats(h.descriptor.methods[i], h.info, h.qos);
  }

  /** The invoker gets the request: service, method, content, and metadata that read the
      same. */
  predicate Gets(inv: Invocation, invoker: Invoker, request: RPC) {
    && inv.invoker == invoker
    && inv.rpc.serviceName == request.serviceName && inv.rpc.methodName == request.methodName
    && inv.rpc.content == request.content && ToMD(inv.rpc.metadata) == ToMD(request.metadata)
  }

  /** One message is sent, a terminal one under the request's tag. */
  predicate OneAnswer(sent: seq<RPC>, request: RPC, outgoing: Metadata) {
    |sent| == 1 && sent[0].tag == request.tag && sent[0].content.Reply? && ToMD(sent[0].metadata) == outgoing
  }

  /** A unary method that is not broadcast, because it is not declared so or there is but
      one handler, is invoked once at the first handler, and its caller reads what that
      returned. */
  lemma UnaryIsInvoked(seen: Reads, inv: Invoker, m: MethodDesc, request: RPC, final: RPC, env: Env, outgoing: Metadata,
                       sent: seq<RPC>, log: seq<Invocation>)
    requires IsFor(seen, request, inv, m) && Handled(seen, request, final, env, outgoing, sent, log)
    requires !m.clientStreaming && !m.serverStreaming && (m.qos != Some(Broadcast) || seen.lenAgain <= 1)
    ensures |log| == 1 && Gets(log[0], inv, request) && OneAnswer(sent, request, outgoing)
    ensures Observe(sent[0].content.response) ==
      match env.unary(inv, final)
      case Done(data) => Done(data)
      case Failed(status) => if status.code == OK then Done([]) else Failed(status)
  {
    TablesSay(seen.first.value, inv, m);
    MetadataRoundTrip(outgoing);
  }

  /** A server-streaming method is invoked once at the first handler; its caller reads the
      refusal, or is passed on what the handler writes to the channel. */
  lemma StreamIsPumped(seen: Reads, inv: Invoker, m: MethodDesc, request: RPC, final: RPC, env: Env, outgoing: Metadata,
                       sent: seq<RPC>, log: seq<Invocation>)
    requires IsFor(seen, request, inv, m) && Handled(seen, request, final, env, outgoing, sent, log)
    requires !m.clientStreaming && m.serverStreaming && (m.qos != Some(Broadcast) || seen.lenAgain <= 1)
    ensures |log| == 1 && Gets(log[0], inv, request)
    ensures match env.stream(inv, final)
      case Refused(status) =>
        && OneAnswer(sent, request, outgoing)
        && Observe(sent[0].content.response) == if status.code == OK then Done([]) else Failed(status)
      case Channel(items, cancelAt) => exists at :: PassedOn(request.tag, items, cancelAt, sent, at)
  {
    TablesSay(seen.first.value, inv, m);
    match env.stream(inv, final)
    case Refused(_) => MetadataRoundTrip(outgoing);
    case Channel(items, cancelAt) => var at := PumpedIsPassedOn(request.tag, items, cancelAt);
  }

  /** A broadcast method is invoked once at each of several handlers, if all have it, and
      its caller reads an empty success. */
  lemma BroadcastIsForAll(seen: Reads, inv: Invoker, m: MethodDesc, request: RPC, final: RPC, env: Env, outgoing: Metadata,
                          sent: seq<RPC>, log: seq<Invocation>)
    requires IsFor(seen, request, inv, m) && Handled(seen, request, final, env, outgoing, sent, log)
    requires m.qos == Some(Broadcast) && seen.lenAgain > 1
    requires forall i :: 0 <= i < |seen.snapshot| ==> m.name in seen.snapshot[i].invokers
    ensures |log| == |seen.snapshot|
    ensures forall i :: 0 <= i < |log| ==> m.name in seen.snapshot[i].invokers && Gets(log[i], seen.snapshot[i].invokers[m.name], request)
    ensures OneAnswer(sent, request, outgoing) && Observe(sent[0].content.response) == Done([])
  {
    TablesSay(seen.first.value, inv, m);
    MetadataRoundTrip(outgoing);
    assert seen.snapshot[..|log|] == seen.snapshot;
  }

  /** Nobody is invoked for a service that has no handler, or for a method that is not in
      the descriptor, and the caller reads why. */
  lemma OthersAreRefused(seen: Reads, inv: Invoker, request: RPC, final: RPC, env: Env, outgoing: Metadata,
                         sent: seq<RPC>, log: seq<Invocation>)
    requires Handled(seen, request, final, env, outgoing, sent, log)
    requires !seen.found || seen.len == 0 || seen.first.None?
      || (WellMade(seen.first.value, inv) && forall m :: m in seen.first.value.descriptor.methods ==> m.name != request.methodName)
    ensures log == [] && OneAnswer(sent, request, outgoing) && Observe(sent[0].content.response).Failed?
    ensures Observe(sent[0].content.response).status.code ==
      if !seen.found || seen.len == 0 || seen.first.None? then UNIMPLEMENTED else NOT_FOUND
  {
    MetadataRoundTrip(outgoing);
    if seen.first.Some? && WellMade(seen.first.value, inv)
       && forall m :: m in seen.first.value.descriptor.methods ==> m.name != request.methodName {
      assert !Defines(seen.first.value.descriptor, request.methodName);
    }
  }

  // ---------------------------------------------------------------- no reply

  /** A handler of a service with one method, as NewDefaultServiceHandler builds it. */
  function Sole(id: nat, m: MethodDesc): Handler {
    DefaultHandler(id, id, Descriptor("S", [m], false), LocalInvoker(id, TopologyFlags(true, false, false)))
  }

  lemma SoleMethod(id: nat, m: MethodDesc)
    ensures var h := Sole(id, m);
      && Built(h) && h.invokers.Keys == {m.name}
      && h.info == map[m.name := MethodInfo(m.clientStreaming, m.serverStreaming)]
      && h.qos == if m.qos.Some? then map[m.name := m.qos.value] else map[]
  {
    var h := Sole(id, m);
    DefaultHandlerIsBuilt(id, id, h.descriptor, LocalInvoker(id, TopologyFlags(true, false, false)));
    assert h.descriptor.methods == [m] && [m][..0] == [];
    assert InfoOf([]) == map[] && QosOf([]) == map[];
  }

  /** A client-streaming method of a handler that NewDefaultServiceHandler accepts: the
      caller never gets a reply, whatever the handler would do. */
  lemma ClientStreamIsSilent(id: nat, name: string, bidirectional: bool, request: RPC, final: RPC, env: Env, outgoing: Metadata,
                             sent: seq<RPC>, log: seq<Invocation>)
    requires var h := Sole(id, MethodDesc(name, true, bidirectional, EMPTY_TYPE, None));
      request.methodName == name && Handled(Reading([h], UNDISTURBED), request, final, env, outgoing, sent, log)
    ensures AllAllowed(Sole(id, MethodDesc(name, true, bidirectional, EMPTY_TYPE, None)).descriptor)
    ensures sent == [] && log == []
  {
    var m := MethodDesc(name, true, bidirectional, EMPTY_TYPE, None);
    SoleMethod(id, m);
    ReadsWhatIsThere([Sole(id, m)]);
  }

  /** A server stream whose worker sees its context end before the channel is closed: the
      caller gets the messages read so far and no end. */
  lemma CancelledStreamHasNoEnd(id: nat, name: string, items: seq<RPC>, k: nat, request: RPC, final: RPC, env: Env,
                                outgoing: Metadata, sent: seq<RPC>, log: seq<Invocation>)
    requires k <= |items| && (forall i, m :: env.stream(i, m) == Channel(items, Some(k)))
    requires var h := Sole(id, MethodDesc(name, false, true, EMPTY_TYPE, None));
      request.methodName == name && Handled(Reading([h], UNDISTURBED), request, final, env, outgoing, sent, log)
    ensures sent == StreamReplies(request.tag, StreamMsgs(items[..k])) && !Flow.Terminated(sent)
  {
    var m := MethodDesc(name, false, true, EMPTY_TYPE, None);
    SoleMethod(id, m);
    ReadsWhatIsThere([Sole(id, m)]);
    PumpedIsScript(request.tag, items, Some(k));
  }

  // ---------------------------------------------------------------- broadcast

  predicate Inhabited(ops: seq<ListOp>, k: nat)
    requires k <= |ops|
  {
    Replay(ops, k) != []
  }

  lemma ListsShareHandler(ops: seq<ListOp>, k: nat) returns (h: Handler)
    requires k < |ops| && Replay(ops, k) != [] && Replay(ops, k + 1) != []
    ensures h in Replay(ops, k) && h in Replay(ops, k + 1)
  {
    match ops[k]
    case Appended(_) => h := Replay(ops, k)[0];
    case Expired(_) => h := Replay(ops, k + 1)[0];
  }

  /** The list keeps describing the same service as long as it does not run empty. */
  lemma {:induction false} DescriptorIsStable(ops: seq<ListOp>, a: nat, b: nat)
    requires a <= b <= |ops|
    requires forall k :: a <= k <= b ==> Inhabited(ops, k)
    ensures Inhabited(ops, a) && Inhabited(ops, b) && Replay(ops, a)[0].descriptor == Replay(ops, b)[0].descriptor
  {
    assert Inhabited(ops, a) && Inhabited(ops, b);
    if a < b {
      assert Inhabited(ops, b - 1);
      DescriptorIsStable(ops, a, b - 1);
      ListHasOneDescriptor(ops, b - 1);
      ListHasOneDescriptor(ops, b);
      var shared := ListsShareHandler(ops, b - 1);
    }
  }

  lemma ListedHandlersAreBuilt(ops: seq<ListOp>, k: nat)
    requires k <= |ops| && AppendsBuilt(ops)
    ensures AllBuilt(Replay(ops, k))
  {
    ChangedIsBuilt([], ops, k);
  }

  /** First is read after `a` operations on the list and Range after `b`.  If the list
      does not run empty in between, every handler of the snapshot has the method, and
      the "not found (broadcast)" branch is not taken. */
  lemma BroadcastReachesAll(ops: seq<ListOp>, a: nat, b: nat, name: string)
    requires a <= b <= |ops| && AppendsBuilt(ops)
    requires forall k :: a <= k <= b ==> Inhabited(ops, k)
    requires Inhabited(ops, a) && name in Replay(ops, a)[0].qos
    ensures AllDefine(Replay(ops, b), name)
  {
    DescriptorIsStable(ops, a, b);
    ListedHandlersAreBuilt(ops, a);
    assert Built(Replay(ops, a)[0]);
    MissedByDescriptor(ops, b, name);
  }

  /** A snapshot misses a method exactly when it is not empty and the service it describes
      does not have the method: one handler without it means that none has it. */
  lemma MissedByDescriptor(ops: seq<ListOp>, b: nat, name: string)
    requires b <= |ops| && AppendsBuilt(ops)
    ensures !AllDefine(Replay(ops, b), name) <==> Replay(ops, b) != [] && !Defines(Replay(ops, b)[0].descriptor, name)
  {
    var snapshot := Replay(ops, b);
    ListHasOneDescriptor(ops, b);
    ListedHandlersAreBuilt(ops, b);
    forall i | 0 <= i < |snapshot| ensures name in snapshot[i].invokers <==> Defines(snapshot[0].descriptor, name) {
      assert Built(snapshot[i]);
    }
  }

  /** The branch is taken exactly when the list has come to describe another service, one
      without the method; and then the list was empty at some point between the reads. */
  lemma BroadcastMissesExactly(ops: seq<ListOp>, a: nat, b: nat, name: string)
    requires a <= b <= |ops| && AppendsBuilt(ops)
    requires Inhabited(ops, a) && name in Replay(ops, a)[0].qos
    ensures !AllDefine(Replay(ops, b), name) <==>
      Inhabited(ops, b) && Replay(ops, b)[0].descriptor != Replay(ops, a)[0].descriptor
      && !Defines(Replay(ops, b)[0].descriptor, name)
    ensures !AllDefine(Replay(ops, b), name) ==> exists k :: a < k < b && !Inhabited(ops, k)
  {
    MissedByDescriptor(ops, b, name);
    ListedHandlersAreBuilt(ops, a);
    assert Built(Replay(ops, a)[0]);
    if !AllDefine(Replay(ops, b), name) && forall k :: a <= k <= b ==> Inhabited(ops, k) {
      BroadcastReachesAll(ops, a, b, name);
    }
  }

  /** A service is registered twice, goes away, and another one takes its place. */
  function Replacement(h: Handler, i: Handler, g: Handler, j: Handler): seq<ListOp> {
    [Appended(h), Appended(i), Expired(h), Expired(i), Appended(g), Appended(j)]
  }

  lemma ReplacementRuns(h: Handler, i: Handler, g: Handler, j: Handler) returns (ops: seq<ListOp>, a: nat, b: nat)
    requires h != i && h.descriptor == i.descriptor && g.descriptor == j.descriptor
    ensures a <= b <= |ops|
    ensures Replay(ops, a) == [h, i] && Replay(ops, b) == [g, j]
    ensures Built(h) && Built(i) && Built(g) && Built(j) ==> AppendsBuilt(ops)
  {
    ops, a, b := Replacement(h, i, g, j), 2, 6;
    assert Replay(ops, 0) == [];
    assert Replay(ops, 1) == [h];
    assert Replay(ops, 2) == [h, i];
    assert Replay(ops, 3) == [i];
    assert Replay(ops, 4) == [];
    assert Replay(ops, 5) == [g];
  }

  function Notice(name: string): MethodDesc { MethodDesc(name, false, false, EMPTY_TYPE, Some(Broadcast)) }

  /** If it does run empty, the branch can be taken, by a worker that read First before
      and ranges after the service was replaced. */
  lemma BroadcastCanMiss(name: string, other: string) returns (ops: seq<ListOp>, a: nat, b: nat, m: Meddling)
    requires name != other
    ensures a <= b <= |ops| && AppendsBuilt(ops)
    ensures Inhabited(ops, a) && name in Replay(ops, a)[0].qos && !AllDefine(Replay(ops, b), name)
    ensures var seen := Reading(Replay(ops, a), m);
      && seen.snapshot == Replay(ops, b) && BranchFor(seen, name).BroadcastAll?
  {
    var notice, otherNotice := Notice(name), Notice(other);
    var h, i, g, j := Sole(0, notice), Sole(1, notice), Sole(2, otherNotice), Sole(3, otherNotice);
    SoleMethod(0, notice);
    SoleMethod(1, notice);
    SoleMethod(2, otherNotice);
    SoleMethod(3, otherNotice);
    ops, a, b := ReplacementRuns(h, i, g, j);
    assert name !in [g, j][0].invokers;
    m := Meddling([], [], [], ops[a..b], _ => []);
    LateReading(ops, a, b, m);
  }

  /** All that happens to the list happens just before Range. */
  lemma LateReading(ops: seq<ListOp>, a: nat, b: nat, m: Meddling)
    requires a <= b <= |ops| && m.beforeLen == m.beforeFirst == m.beforeLenAgain == [] && m.beforeRange == ops[a..b]
    ensures var list := Replay(ops, a);
      Reading(list, m) == Reads(true, |list|, FirstOf(list), |list|, Replay(ops, b))
  {
    ReplaySplits(ops, a, b);
  }

  /** The answer is then a nil error, and the caller reads an unknown failure. */
  lemma MissReadsAsUnknown(seen: Reads, request: RPC, final: RPC, env: Env, outgoing: Metadata,
                           sent: seq<RPC>, log: seq<Invocation>)
    requires Handled(seen, request, final, env, outgoing, sent, log)
    requires BranchFor(seen, request.methodName).BroadcastAll?
    ensures |sent| == 1 && sent[0].content.Reply?
    ensures Observe(sent[0].content.response) ==
      if AllDefine(seen.snapshot, request.methodName) then Done([]) else Failed(Status(UNKNOWN, "Unknown"))
  {
    assert sent[0].content.Reply?;
  }
}
