/** One direction of the tag-multiplexing protocol: the calls one endpoint makes
    and the peer serves.

    The client half is the state of Request, of the reply branches of Run and of
    its drain; the server half is the pool of handleRequest workers.  Steps are as
    fine as the goroutines that interleave: taking a tag, storing the future and
    sending are three separate steps, and so is each reply.

    Fields marked (history) are never consulted by a step's guard or by what the
    code looks up; they only record what happened, so that theorems can mention it. */
module Flow {
  import opened Messages

  /** Where a goroutine inside Request has got to. */
  datatype Stage = Allocated | Stored

  /** The channel of capacity one that Request returns. `delivered` is everything
      ever put into it and `taken` how much of that the consumer has read. */
  datatype Future = Future(delivered: seq<RPC>, taken: nat, closed: bool) {
    predicate HasRoom() { |delivered| < taken + 1 }
    function Put(m: RPC): Future { this.(delivered := delivered + [m]) }
  }

  datatype Fault = UnexpectedTag | SendOnClosed

  datatype Phase =
    | Running
    | Draining(err: Option<Failure>, before: set<nat>)
    | Stopped(err: Option<Failure>, before: set<nat>)
    | Aborted
    | Panicked(fault: Fault)

  /** Calls are numbered in the order they take a tag. */
  datatype Client = Client(
    issued: seq<RPC>,            // the n-th request as it is sent, tag included
    callers: map<nat, Stage>,    // goroutines that are inside Request
    pending: map<Tag, nat>,      // pendingRPCs: tag to future
    futures: seq<Future>,
    phase: Phase,
    drained: set<nat>,           // (history) answered by the drain
    lost: set<nat>)              // (history) request could not be sent

  datatype Server = Server(
    workers: map<nat, Tag>,        // handleRequest goroutines and their requestTag
    emitted: map<nat, seq<RPC>>,   // (history) replies that were sent
    lost: set<nat>)                // (history) worker left without a reply

  /** `call` is (history): the code only ever looks at the tag. */
  datatype Packet = Packet(call: nat, rpc: RPC)

  datatype Flow = Flow(client: Client, server: Server, requests: seq<Packet>, replies: seq<Packet>)

  // ---------------------------------------------------------------- the code's steps

  /** The n-th Inc of an unsigned 64-bit counter that starts at zero. */
  function TagOf(n: nat): Tag { (n + 1) % TAG_SPACE }

  /** Request, up to and including `count.Inc()`. */
  function Allocate(c: Client, m: RPC): Client {
    c.(issued := c.issued + [m.(tag := TagOf(|c.issued|))],
       callers := c.callers[|c.issued| := Allocated],
       futures := c.futures + [Future([], 0, false)])
  }

  /** Request: `pendingRPCs.Store`. */
  function Store(c: Client, n: nat): Client
    requires n < |c.issued|
  {
    c.(callers := c.callers[n := Stored], pending := c.pending[c.issued[n].tag := n])
  }

  /** Request: `stream.Send` has returned. */
  function LeaveRequest(c: Client, n: nat, ok: bool): Client {
    c.(callers := c.callers - {n}, lost := if ok then c.lost else c.lost + {n})
  }

  /** Run: the RPC_Response and RPC_ServerStreamMsg cases. */
  function OnReply(c: Client, m: RPC): Client
    requires forall t :: t in c.pending ==> c.pending[t] < |c.futures|
  {
    if m.tag !in c.pending then
      c.(phase := Panicked(UnexpectedTag))
    else
      var n := c.pending[m.tag];
      if c.futures[n].closed then
        c.(phase := Panicked(SendOnClosed))
      else if m.content.Reply? then
        c.(pending := c.pending - {m.tag}, futures := c.futures[n := c.futures[n].Put(m).(closed := true)])
      else
        c.(futures := c.futures[n := c.futures[n].Put(m)])
  }

  /** Run leaves its loop and starts to range over the pending table. */
  function StartDrain(c: Client, err: Option<Failure>): Client {
    c.(phase := Draining(err, c.pending.Values))
  }

  function DrainReply(t: Tag, err: Option<Failure>): RPC {
    RPC(t, "", "", Reply(Response([], ErrorProto(err))), None)
  }

  /** One visit of the drain's Range callback. */
  function DrainOne(c: Client, t: Tag): Client
    requires c.phase.Draining? && t in c.pending && c.pending[t] < |c.futures|
  {
    var n := c.pending[t];
    if c.futures[n].closed then
      c.(phase := Panicked(SendOnClosed))
    else
      c.(pending := c.pending - {t},
         futures := c.futures[n := c.futures[n].Put(DrainReply(t, c.phase.err)).(closed := true)],
         drained := c.drained + {n})
  }

  function EndDrain(c: Client): Client
    requires c.phase.Draining?
  {
    c.(phase := Stopped(c.phase.err, c.phase.before))
  }

  function Take(c: Client, n: nat): Client
    requires n < |c.futures|
  {
    c.(futures := c.futures[n := c.futures[n].(taken := c.futures[n].taken + 1)])
  }

  function Emitted(s: Server, n: nat): seq<RPC> {
    if n in s.emitted then s.emitted[n] else []
  }

  /** Run: a request is handed to a worker, which saves the tag it came with. */
  function Accept(s: Server, p: Packet): Server {
    s.(workers := s.workers[p.call := p.rpc.tag])
  }

  /** Reply, ReplyErr and StreamReply all send a fresh message under the saved tag. */
  function ReplyRPC(s: Server, n: nat, content: Content, md: Option<MD>): RPC
    requires n in s.workers
  {
    RPC(s.workers[n], "", "", content, md)
  }

  function SendReply(s: Server, n: nat, m: RPC, ok: bool): Server {
    if ok then s.(emitted := s.emitted[n := Emitted(s, n) + [m]]) else s
  }

  /** The worker returns, having (or not having) sent a terminal reply. */
  function EndWorker(s: Server, n: nat, replied: bool): Server {
    s.(workers := s.workers - {n}, lost := if replied then s.lost else s.lost + {n})
  }

  // ---------------------------------------------------------------- transitions

  datatype Step =
    | DoAllocate(m: RPC)
    | DoStore(n: nat)
    | DoSend(n: nat, ok: bool)
    | DoAccept
    | DoStream(n: nat, msg: ServerStreamMessage, md: Option<MD>, ok: bool)
    | DoReply(n: nat, r: Response, md: Option<MD>, ok: bool)
    | DoAbandon(n: nat)
    | DoReceive
    | DoTake(n: nat)
    | DoStartDrain(err: Option<Failure>)
    | DoDrainOne(t: Tag)
    | DoEndDrain

  /** A send into a future blocks while it is full, unless it panics first. */
  predicate Unblocked(c: Client, t: Tag) {
    t in c.pending ==> c.pending[t] < |c.futures| && (c.futures[c.pending[t]].closed || c.futures[c.pending[t]].HasRoom())
  }

  predicate CanReceive(c: Client, m: RPC) {
    && c.phase.Running?
    && (forall t :: t in c.pending ==> c.pending[t] < |c.futures|)
    && Unblocked(c, m.tag)
  }

  predicate ClientEnabled(c: Client, step: Step) {
    match step
    case DoAllocate(m) => m.content.Request?
    case DoStore(n) => n < |c.issued| && n in c.callers && c.callers[n] == Allocated
    case DoSend(n, _) => n < |c.issued| && n in c.callers && c.callers[n] == Stored
    case DoTake(n) => n < |c.futures| && c.futures[n].taken < |c.futures[n].delivered|
    case DoStartDrain(_) => c.phase.Running?
    case DoDrainOne(t) => c.phase.Draining? && t in c.pending && Unblocked(c, t)
    case DoEndDrain => c.phase.Draining? && c.phase.before !! c.pending.Values
    case _ => false
  }

  function ClientStep(c: Client, step: Step): Client
    requires ClientEnabled(c, step)
  {
    match step
    case DoAllocate(m) => Allocate(c, m)
    case DoStore(n) => Store(c, n)
    case DoSend(n, ok) => LeaveRequest(c, n, ok)
    case DoTake(n) => Take(c, n)
    case DoStartDrain(err) => StartDrain(c, err)
    case DoDrainOne(t) => DrainOne(c, t)
    case DoEndDrain => EndDrain(c)
  }

  /** What the client half puts on the wire in this step. */
  function ClientSends(c: Client, step: Step): seq<Packet>
    requires ClientEnabled(c, step)
  {
    if step.DoSend? && step.ok then [Packet(step.n, c.issued[step.n])] else []
  }

  predicate ServerEnabled(s: Server, step: Step) {
    (step.DoStream? || step.DoReply? || step.DoAbandon?) && step.n in s.workers
  }

  function ServerStep(s: Server, step: Step): Server
    requires ServerEnabled(s, step)
  {
    match step
    case DoStream(n, msg, md, ok) => SendReply(s, n, ReplyRPC(s, n, StreamMsg(msg), md), ok)
    case DoReply(n, r, md, ok) => EndWorker(SendReply(s, n, ReplyRPC(s, n, Reply(r), md), ok), n, ok)
    case DoAbandon(n) => EndWorker(s, n, false)
  }

  function ServerSends(s: Server, step: Step): seq<Packet>
    requires ServerEnabled(s, step)
  {
    match step
    case DoStream(n, msg, md, true) => [Packet(n, ReplyRPC(s, n, StreamMsg(msg), md))]
    case DoReply(n, r, md, true) => [Packet(n, ReplyRPC(s, n, Reply(r), md))]
    case _ => []
  }

  predicate Enabled(f: Flow, step: Step) {
    match step
    case DoAccept => f.requests != []
    case DoReceive => f.replies != [] && CanReceive(f.client, f.replies[0].rpc)
    case _ => ClientEnabled(f.client, step) || ServerEnabled(f.server, step)
  }

  function Apply(f: Flow, step: Step): Flow
    requires Enabled(f, step)
  {
    if step.DoAccept? then
      f.(server := Accept(f.server, f.requests[0]), requests := f.requests[1..])
    else if step.DoReceive? then
      f.(client := OnReply(f.client, f.replies[0].rpc), replies := f.replies[1..])
    else if ClientEnabled(f.client, step) then
      f.(client := ClientStep(f.client, step), requests := f.requests + ClientSends(f.client, step))
    else
      f.(server := ServerStep(f.server, step), replies := f.replies + ServerSends(f.server, step))
  }

  function InitClient(): Client { Client([], map[], map[], [], Running, {}, {}) }
  function InitServer(): Server { Server(map[], map[], {}) }
  function Init(): Flow { Flow(InitClient(), InitServer(), [], []) }

  // ---------------------------------------------------------------- what is invariant

  /** Stream messages, then at most one terminal response, which is last. */
  predicate Script(ms: seq<RPC>) {
    forall i :: 0 <= i < |ms| ==> ms[i].content.StreamMsg? || (i == |ms| - 1 && ms[i].content.Reply?)
  }

  predicate Terminated(ms: seq<RPC>) {
    ms != [] && ms[|ms| - 1].content.Reply?
  }

  /** The replies to one call among the packets on the wire, in wire order. */
  function InFlight(ps: seq<Packet>, n: nat): seq<RPC> {
    if ps == [] then []
    else (if ps[0].call == n then [ps[0].rpc] else []) + InFlight(ps[1..], n)
  }

  /** What future `n` received over the wire, as opposed to from the drain. */
  function FromPeer(c: Client, n: nat): seq<RPC>
    requires n < |c.futures|
  {
    var d := c.futures[n].delivered;
    if n in c.drained && d != [] then d[..|d| - 1] else d
  }

  predicate IsPending(c: Client, n: nat)
    requires n < |c.issued|
  {
    c.issued[n].tag in c.pending && c.pending[c.issued[n].tag] == n
  }

  predicate IsAllocated(c: Client, n: nat) {
    n in c.callers && c.callers[n] == Allocated
  }

  predicate OnWire(ps: seq<Packet>, n: nat) {
    exists i :: 0 <= i < |ps| && ps[i].call == n
  }

  function One(b: bool): nat { if b then 1 else 0 }

  /** In how many of the five possible places call `n` is. */
  function Places(f: Flow, n: nat): nat {
    One(n in f.client.callers) + One(OnWire(f.requests, n)) + One(n in f.server.workers)
    + One(Terminated(Emitted(f.server, n))) + One(n in f.client.lost || n in f.server.lost)
  }

  /** All messages carry tag `t`. */
  predicate Under(ms: seq<RPC>, t: Tag) {
    forall i :: 0 <= i < |ms| ==> ms[i].tag == t
  }

  predicate FutureInv(c: Client, n: nat)
    requires n < |c.futures| == |c.issued|
  {
    var fu := c.futures[n];
    && Script(fu.delivered) && Under(fu.delivered, c.issued[n].tag)
    && (fu.closed <==> Terminated(fu.delivered))
    && fu.taken <= |fu.delivered| <= fu.taken + 1
  }

  predicate CallInv(f: Flow, n: nat)
    requires n < |f.client.issued| == |f.client.futures|
  {
    var c, s := f.client, f.server;
    && c.issued[n].content.Request?
    && FutureInv(c, n)
    && Script(Emitted(s, n))
    && FromPeer(c, n) + InFlight(f.replies, n) == Emitted(s, n)
    && (IsPending(c, n) <==> !IsAllocated(c, n) && !c.futures[n].closed)
    && (n in c.drained ==> c.futures[n].closed && !IsAllocated(c, n))
    && Places(f, n) == 1
    && (n in c.callers || OnWire(f.requests, n) ==> Emitted(s, n) == [])
    && (n in s.workers ==> s.workers[n] == c.issued[n].tag)
  }

  predicate Below(s: set<nat>, n: nat) { forall x :: x in s ==> x < n }

  /** The tables mention only calls that were made. */
  predicate ShapeInv(f: Flow) {
    var c, s := f.client, f.server;
    var n := |c.issued|;
    && |c.futures| == n
    && Below(c.callers.Keys, n) && Below(c.drained, n) && Below(c.lost, n)
    && Below(s.workers.Keys, n) && Below(s.emitted.Keys, n) && Below(s.lost, n)
    && (forall t :: t in c.pending ==> c.pending[t] < n && c.issued[c.pending[t]].tag == t)
  }

  predicate WireInv(f: Flow) {
    var c := f.client;
    && (forall i :: 0 <= i < |f.requests| ==>
          f.requests[i].call < |c.issued| && f.requests[i].rpc == c.issued[f.requests[i].call])
    && (forall i, j :: 0 <= i < j < |f.requests| ==> f.requests[i].call != f.requests[j].call)
    && (forall i :: 0 <= i < |f.replies| ==>
          && f.replies[i].call < |c.issued|
          && f.replies[i].rpc.tag == c.issued[f.replies[i].call].tag
          && (f.replies[i].rpc.content.Reply? || f.replies[i].rpc.content.StreamMsg?))
  }

  /** What the drain owes to the calls that were pending when it began, and what
      it told the ones it reached. */
  predicate DrainInv(c: Client)
    requires |c.futures| == |c.issued|
  {
    && (match c.phase
        case Running => c.drained == {}
        case Draining(err, before) => Below(before, |c.issued|) && forall n :: n in before ==> IsPending(c, n) || c.futures[n].closed
        case Stopped(err, before) => Below(before, |c.issued|) && forall n :: n in before ==> c.futures[n].closed
        case _ => false)
    && (forall n :: n in c.drained && n < |c.futures| ==> DrainedLast(c, n))
  }

  /** The last thing put into the future is the drain's reply, with the stream's error. */
  predicate DrainedLast(c: Client, n: nat)
    requires n < |c.futures| == |c.issued|
  {
    var d := c.futures[n].delivered;
    && (c.phase.Draining? || c.phase.Stopped?)
    && d != [] && d[|d| - 1] == DrainReply(c.issued[n].tag, c.phase.err)
  }

  /** Which of the first 2^64 calls drew tag `t`. */
  function CallOf(t: Tag): nat { if t == 0 then TAG_SPACE - 1 else t - 1 }

  /** With at most 2^64 calls a tag determines its call. */
  predicate TagInv(c: Client) {
    forall n :: 0 <= n < |c.issued| ==> CallOf(c.issued[n].tag) == n
  }

  predicate Inv(f: Flow) {
    && ShapeInv(f)
    && TagInv(f.client)
    && WireInv(f)
    && DrainInv(f.client)
    && (forall n :: 0 <= n < |f.client.issued| ==> CallInv(f, n))
  }
}
