/** How a server builds its part of the splice graph: the controllers it creates, the
    handlers NewStreamController, RegisterService, Splice and Serve put into them, and
    the end of contexts.  Over every sequence of these, discovery requests are answered by
    the controller they reach as long as its stream lives, and forwarded from the server's
    main controller to the peers of spliced streams and nowhere else. */
module Topology {
  import opened Messages
  import opened Registry
  import opened Discovery

  /** A server's controllers: the main one and, one for each splice, the others.  `spliced`
      are those whose splice returned without an error.  Every stream has a context of its
      own; `ended` are the contexts that have ended. */
  datatype Server = Server(main: Uuid, nodes: map<Uuid, Node>, spliced: seq<Uuid>, ended: set<Context>)

  const NO_FLAGS := TopologyFlags(false, false, false)
  const SPLICED := TopologyFlags(false, false, true)

  function ListFor(node: Node, h: Handler): seq<Handler> {
    if h.descriptor.name in node.services then node.services[h.descriptor.name] else []
  }

  /** RegisterServiceHandler; where the descriptors differ the original panics. */
  function Register(node: Node, h: Handler): Node {
    if Accepts(ListFor(node, h), h) then node.(services := node.services[h.descriptor.name := ListFor(node, h) + [h]]) else node
  }

  /** The first `k` of the handlers, one after the other, up to the first panic. */
  function RegisterUpTo(node: Node, hs: seq<Handler>, k: nat): Node
    requires k <= |hs|
    decreases k, 0
  {
    if k == 0 then node
    else if NoPanic(node, hs, k - 1) then Register(RegisterUpTo(node, hs, k - 1), hs[k - 1])
    else RegisterUpTo(node, hs, k - 1)
  }

  /** None of the first `k` handlers is refused. */
  predicate NoPanic(node: Node, hs: seq<Handler>, k: nat)
    requires k <= |hs|
    decreases k, 1
  {
    k > 0 ==> NoPanic(node, hs, k - 1) && Accepts(ListFor(RegisterUpTo(node, hs, k - 1), hs[k - 1]), hs[k - 1])
  }

  function RegisterAll(node: Node, hs: seq<Handler>): Node { RegisterUpTo(node, hs, |hs|) }

  predicate AllRegistered(node: Node, hs: seq<Handler>) { NoPanic(node, hs, |hs|) }

  predicate AllLegal(ds: seq<Descriptor>) { forall i :: 0 <= i < |ds| ==> AllAllowed(ds[i]) }

  /** The descriptors before the first one for which NewDefaultServiceHandler panics. */
  function Legal(ds: seq<Descriptor>): (r: seq<Descriptor>)
    ensures r <= ds && (AllLegal(ds) ==> r == ds)
  {
    if ds == [] || !AllAllowed(ds[0]) then [] else [ds[0]] + Legal(ds[1..])
  }

  /** Handlers for what was discovered, all with the same invoker. */
  function Handlers(id: nat, ctx: Context, ds: seq<Descriptor>, invoker: Invoker): seq<Handler> {
    seq(|Legal(ds)|, i requires 0 <= i < |Legal(ds)| => DefaultHandler(id, ctx, Legal(ds)[i], invoker))
  }

  /** NewStreamController: first the controller's own implementation of the reflection
      service, then the peer's. */
  function OwnReflector(id: nat, ctx: Context, d: Descriptor, base: TopologyFlags): Handler {
    DefaultHandler(id, ctx, d, LocalInvoker(id, base.(local := true)))
  }

  function NewController(uuid: Uuid, id: nat, ctx: Context, d: Descriptor, base: TopologyFlags): Node {
    Register(Register(Node(ctx, map[]), OwnReflector(id, ctx, d, base)),
             DefaultHandler(id, ctx, d, ControllerInvoker(uuid, base)))
  }

  /** `discovered` is None if discovery fails.  The controller of a splice runs all the
      same, but the server does not know it; Serve replicates nothing then.  A handler is
      removed at some time after its context has ended. */
  datatype Op =
    | RegisterLocal(h: Handler)
    | Splice(ctrl: Uuid, id: nat, ctx: Context, own: Descriptor, visible: seq<Handler>, discovered: Option<seq<Descriptor>>)
    | Serve(id: nat, discovered: Option<seq<Descriptor>>)
    | ContextEnds(ctx: Context)
    | Expire(at: Uuid, h: Handler)

  /** A local service that its descriptor lets spliced clients see. */
  predicate IsVisible(h: Handler) { h.flags.local && h.descriptor.splicedClients }

  predicate Enabled(s: Server, op: Op) {
    match op
    case RegisterLocal(h) => h.flags.local && (forall m :: m in h.invokers ==> FlagsOf(h.invokers[m]) == h.flags)
    case Splice(ctrl, _, ctx, own, visible, _) =>
      && s.main in s.nodes && ctrl !in s.nodes && own.name == REFLECTION
      && (forall c :: c in s.nodes ==> s.nodes[c].streamContext != ctx)
      && (forall h :: h in visible ==> IsVisible(h) && h in ListFor(s.nodes[s.main], h))
      && (forall k :: k in s.nodes[s.main].services ==>
            forall h :: h in s.nodes[s.main].services[k] && IsVisible(h) ==> h in visible)
    case Serve(_, _) => true
    case ContextEnds(_) => true
    case Expire(at, h) => at in s.nodes && h.context in s.ended
  }

  function ExpireAt(node: Node, h: Handler): Node {
    var name := h.descriptor.name;
    if name in node.services then node.(services := node.services[name := Without(node.services[name], h)]) else node
  }

  /** How many of the spliced controllers, from the `i`-th on, Serve gets to when it
      replicates `hs` to one after the other: a panic ends it. */
  function ServedFrom(s: Server, hs: seq<Handler>, whole: bool, i: nat): (n: nat)
    requires Sound(s) && i <= |s.spliced|
    ensures i <= n <= |s.spliced|
    decreases |s.spliced| - i
  {
    if i == |s.spliced| then i
    else if whole && AllRegistered(s.nodes[s.spliced[i]], hs) then ServedFrom(s, hs, whole, i + 1)
    else i + 1
  }

  function Replicate(s: Server, hs: seq<Handler>, whole: bool): map<Uuid, Node>
    requires Sound(s)
  {
    map c | c in s.nodes :: if c in s.spliced[..ServedFrom(s, hs, whole, 0)] then RegisterAll(s.nodes[c], hs) else s.nodes[c]
  }

  /** The controller a splice creates, with the local services its peer may see. */
  function SplicedNode(op: Op): Node
    requires op.Splice?
  {
    RegisterAll(NewController(op.ctrl, op.id, op.ctx, op.own, SPLICED), op.visible)
  }

  /** The handlers a splice adds to the main controller. */
  function Forwarders(op: Op): seq<Handler>
    requires op.Splice?
  {
    if !Starts(op) || op.discovered.None? then []
    else Handlers(op.id, op.ctx, op.discovered.value, ControllerInvoker(op.ctrl, SPLICED))
  }

  /** The local services that the peer may see were all registered, and the loop starts. */
  predicate Starts(op: Op)
    requires op.Splice?
  {
    AllRegistered(NewController(op.ctrl, op.id, op.ctx, op.own, SPLICED), op.visible)
  }

  /** The splice returns without an error. */
  predicate Returns(s: Server, op: Op)
    requires op.Splice? && s.main in s.nodes
  {
    Starts(op) && op.discovered.Some? && AllLegal(op.discovered.value) && AllRegistered(s.nodes[s.main], Forwarders(op))
  }

  /** The handlers Serve adds to spliced controllers. */
  function Replicas(s: Server, op: Op): seq<Handler>
    requires op.Serve? && s.main in s.nodes
  {
    if op.discovered.None? then []
    else Handlers(op.id, s.nodes[s.main].streamContext, op.discovered.value, ControllerInvoker(s.main, NO_FLAGS))
  }

  predicate Sound(s: Server) { s.main in s.nodes && forall c :: c in s.spliced ==> c in s.nodes }

  function Apply(s: Server, op: Op): Server
    requires Sound(s) && Enabled(s, op)
  {
    match op
    case RegisterLocal(h) => s.(nodes := s.nodes[s.main := Register(s.nodes[s.main], h)])
    case Splice(ctrl, _, _, _, _, _) =>
      s.(nodes := s.nodes[ctrl := SplicedNode(op)][s.main := RegisterAll(s.nodes[s.main], Forwarders(op))],
         spliced := if Returns(s, op) then s.spliced + [ctrl] else s.spliced)
    case Serve(_, discovered) =>
      s.(nodes := Replicate(s, Replicas(s, op), discovered.Some? && AllLegal(discovered.value)))
    case ContextEnds(ctx) => s.(ended := s.ended + {ctx})
    case Expire(at, h) => s.(nodes := s.nodes[at := ExpireAt(s.nodes[at], h)])
  }

  function NewServer(main: Uuid, id: nat, ctx: Context, own: Descriptor): Server {
    Server(main, map[main := NewController(main, id, ctx, own, NO_FLAGS)], [], {})
  }

  // ---------------------------------------------------------------- invariant

  /** The reflection handlers all describe the same service. */
  predicate OneService(node: Node) {
    forall h :: h in Reflectors(node) ==> h.descriptor.name == REFLECTION && h.descriptor == Reflectors(node)[0].descriptor
  }

  /** The controller answers discovery itself: its first reflection handler is local and
      bound to its own stream. */
  predicate OwnFirst(node: Node) {
    Reflectors(node) != [] && Reflectors(node)[0].flags.local && Reflectors(node)[0].context == node.streamContext
  }

  predicate Uniform(h: Handler) {
    forall m :: m in h.invokers ==> FlagsOf(h.invokers[m]) == h.flags
  }

  /** A handler that may be in the main controller's reflection list. */
  predicate MainHandler(s: Server, h: Handler) {
    Uniform(h) && (!h.flags.local && h.flags.spliced ==>
      exists c :: c in s.nodes && c != s.main && forall m :: m in h.invokers ==> h.invokers[m] == ControllerInvoker(c, SPLICED))
  }

  /** A handler that may be in a spliced controller's reflection list. */
  predicate SplicedHandler(node: Node, h: Handler) {
    Uniform(h) && (h.flags.local || !h.flags.spliced || h.context == node.streamContext)
  }

  ghost predicate NodeInv(s: Server, c: Uuid)
    requires c in s.nodes
  {
    && OneService(s.nodes[c])
    && (s.nodes[c].streamContext !in s.ended ==> OwnFirst(s.nodes[c]))
    && (c == s.main ==> forall h :: h in Reflectors(s.nodes[c]) ==> MainHandler(s, h))
    && (c != s.main ==> forall h :: h in Reflectors(s.nodes[c]) ==> SplicedHandler(s.nodes[c], h))
  }

  ghost predicate Inv(s: Server) {
    && Sound(s) && s.main !in s.spliced
    && (forall c :: c in s.nodes ==> NodeInv(s, c))
  }

  lemma RegisterKeeps(node: Node, h: Handler)
    ensures Register(node, h).streamContext == node.streamContext
    ensures forall g :: g in Reflectors(Register(node, h)) ==> g in Reflectors(node) || g == h
    ensures OwnFirst(node) ==> OwnFirst(Register(node, h))
    ensures OneService(node) ==> OneService(Register(node, h))
    ensures Reflectors(node) <= Reflectors(Register(node, h))
  {
  }

  lemma {:induction false} RegisterUpToKeeps(node: Node, hs: seq<Handler>, k: nat)
    requires k <= |hs|
    ensures RegisterUpTo(node, hs, k).streamContext == node.streamContext
    ensures forall g :: g in Reflectors(RegisterUpTo(node, hs, k)) ==> g in Reflectors(node) || g in hs
    ensures OwnFirst(node) ==> OwnFirst(RegisterUpTo(node, hs, k))
    ensures OneService(node) ==> OneService(RegisterUpTo(node, hs, k))
    ensures Reflectors(node) <= Reflectors(RegisterUpTo(node, hs, k))
  {
    if k > 0 {
      RegisterUpToKeeps(node, hs, k - 1);
      RegisterKeeps(RegisterUpTo(node, hs, k - 1), hs[k - 1]);
    }
  }

  lemma RegisterAllKeeps(node: Node, hs: seq<Handler>)
    ensures RegisterAll(node, hs).streamContext == node.streamContext
    ensures forall g :: g in Reflectors(RegisterAll(node, hs)) ==> g in Reflectors(node) || g in hs
    ensures OwnFirst(node) ==> OwnFirst(RegisterAll(node, hs))
    ensures OneService(node) ==> OneService(RegisterAll(node, hs))
    ensures Reflectors(node) <= Reflectors(RegisterAll(node, hs))
  {
    RegisterUpToKeeps(node, hs, |hs|);
  }

  lemma NewControllerIsOwnFirst(uuid: Uuid, id: nat, ctx: Context, d: Descriptor, base: TopologyFlags)
    requires d.name == REFLECTION
    ensures var node := NewController(uuid, id, ctx, d, base);
      && node.streamContext == ctx && OwnFirst(node) && OneService(node)
      && (forall h :: h in Reflectors(node) ==> Uniform(h) && (h.flags.local || (h.context == ctx && h.flags == base)))
  {
    DefaultIsUniform(id, ctx, d, ControllerInvoker(uuid, base));
    DefaultIsUniform(id, ctx, d, LocalInvoker(id, base.(local := true)));
    TwoRegistrations(ctx, OwnReflector(id, ctx, d, base), DefaultHandler(id, ctx, d, ControllerInvoker(uuid, base)));
  }

  lemma TwoRegistrations(ctx: Context, own: Handler, peer: Handler)
    requires own.descriptor == peer.descriptor && own.descriptor.name == REFLECTION
    ensures var node := Register(Register(Node(ctx, map[]), own), peer);
      node.streamContext == ctx && Reflectors(node) == [own, peer]
  {
    var node := Register(Node(ctx, map[]), own);
    assert Reflectors(node) == [] + [own];
    assert Reflectors(Register(node, peer)) == [own] + [peer];
  }

  lemma DefaultIsUniform(id: nat, ctx: Context, d: Descriptor, invoker: Invoker)
    ensures var h := DefaultHandler(id, ctx, d, invoker);
      Uniform(h) && h.context == ctx && h.flags == FlagsOf(invoker) && h.descriptor == d
  {
  }

  lemma NewServerInv(main: Uuid, id: nat, ctx: Context, own: Descriptor)
    requires own.name == REFLECTION
    ensures Inv(NewServer(main, id, ctx, own))
  {
    NewControllerIsOwnFirst(main, id, ctx, own, NO_FLAGS);
  }

  lemma RegisterLocalKeepsInv(s: Server, h: Handler)
    requires Inv(s) && Enabled(s, RegisterLocal(h))
    ensures Inv(Apply(s, RegisterLocal(h)))
  {
    var t := Apply(s, RegisterLocal(h));
    RegisterKeeps(s.nodes[s.main], h);
    forall c | c in t.nodes ensures NodeInv(t, c) {
      assert NodeInv(s, c);
      if c == s.main {
        forall g | g in Reflectors(s.nodes[c]) ensures MainHandler(t, g) {
          MainHandlerStays(s, t, g);
        }
      }
    }
  }

  lemma SplicedNodeInv(s: Server, op: Op)
    requires Inv(s) && op.Splice? && Enabled(s, op)
    ensures OwnFirst(SplicedNode(op)) && OneService(SplicedNode(op))
    ensures forall h :: h in Reflectors(SplicedNode(op)) ==> SplicedHandler(SplicedNode(op), h)
  {
    NewControllerIsOwnFirst(op.ctrl, op.id, op.ctx, op.own, SPLICED);
    RegisterAllKeeps(NewController(op.ctrl, op.id, op.ctx, op.own, SPLICED), op.visible);
    assert NodeInv(s, s.main);
    forall h | h in op.visible && h in Reflectors(SplicedNode(op)) ensures SplicedHandler(SplicedNode(op), h) {
      ReflectorsAreNamed(SplicedNode(op), h);
      assert h in Reflectors(s.nodes[s.main]);
    }
  }

  lemma ReflectorsAreNamed(node: Node, h: Handler)
    requires OneService(node) && h in Reflectors(node)
    ensures h.descriptor.name == REFLECTION
  {
  }

  lemma HandlersUseInvoker(id: nat, ctx: Context, ds: seq<Descriptor>, invoker: Invoker)
    ensures forall h :: h in Handlers(id, ctx, ds, invoker) ==>
      Uniform(h) && h.context == ctx && h.flags == FlagsOf(invoker) && forall m :: m in h.invokers ==> h.invokers[m] == invoker
  {
  }

  /** There are more controllers, so a main handler stays one. */
  lemma MainHandlerStays(s: Server, t: Server, h: Handler)
    requires MainHandler(s, h) && s.main == t.main && forall c :: c in s.nodes ==> c in t.nodes
    ensures MainHandler(t, h)
  {
  }

  /** The handlers a splice adds go out on the spliced stream, all of them. */
  lemma ForwardersAreMainHandlers(s: Server, op: Op, t: Server)
    requires op.Splice? && op.ctrl in t.nodes && op.ctrl != t.main
    ensures forall h :: h in Forwarders(op) ==> MainHandler(t, h)
  {
    if op.discovered.Some? {
      HandlersUseInvoker(op.id, op.ctx, op.discovered.value, ControllerInvoker(op.ctrl, SPLICED));
    }
  }

  lemma MainAfterSplice(s: Server, op: Op)
    requires Inv(s) && op.Splice? && Enabled(s, op)
    ensures NodeInv(Apply(s, op), s.main)
  {
    var t, main := Apply(s, op), s.nodes[s.main];
    assert NodeInv(s, s.main);
    RegisterAllKeeps(main, Forwarders(op));
    ForwardersAreMainHandlers(s, op, t);
    forall h | h in Reflectors(main) ensures MainHandler(t, h) {
      MainHandlerStays(s, t, h);
    }
  }

  /** Nothing happens to a controller that is not the main one. */
  lemma OtherNodeStays(s: Server, t: Server, c: Uuid)
    requires c in s.nodes && c in t.nodes && s.nodes[c] == t.nodes[c] && c != s.main == t.main && s.ended <= t.ended
    requires NodeInv(s, c)
    ensures NodeInv(t, c)
  {
  }

  lemma SpliceKeepsInv(s: Server, op: Op)
    requires Inv(s) && op.Splice? && Enabled(s, op)
    ensures Inv(Apply(s, op))
  {
    var t := Apply(s, op);
    forall c | c in t.nodes ensures NodeInv(t, c) {
      if c == s.main {
        MainAfterSplice(s, op);
      } else if c == op.ctrl {
        SplicedNodeInv(s, op);
      } else {
        OtherNodeStays(s, t, c);
      }
    }
  }

  /** Nothing happens to the main controller. */
  lemma MainStays(s: Server, t: Server)
    requires s.main == t.main && s.main in s.nodes && s.main in t.nodes && s.nodes[s.main] == t.nodes[s.main]
    requires s.ended <= t.ended && (forall c :: c in s.nodes ==> c in t.nodes) && NodeInv(s, s.main)
    ensures NodeInv(t, s.main)
  {
    forall h | h in Reflectors(s.nodes[s.main]) ensures MainHandler(t, h) {
      MainHandlerStays(s, t, h);
    }
  }

  lemma ReplicatedNodeInv(s: Server, t: Server, c: Uuid, op: Op)
    requires op.Serve? && s.main in s.nodes && c in s.nodes && NodeInv(s, c) && c != s.main == t.main && s.ended == t.ended
    requires c in t.nodes && t.nodes[c] == RegisterAll(s.nodes[c], Replicas(s, op))
    ensures NodeInv(t, c)
  {
    var hs := Replicas(s, op);
    RegisterAllKeeps(s.nodes[c], hs);
    if op.discovered.Some? {
      HandlersUseInvoker(op.id, s.nodes[s.main].streamContext, op.discovered.value, ControllerInvoker(s.main, NO_FLAGS));
    }
    forall h | h in Reflectors(t.nodes[c]) ensures SplicedHandler(t.nodes[c], h) {
      assert h in hs || SplicedHandler(s.nodes[c], h);
    }
  }

  lemma ServeKeepsInv(s: Server, op: Op)
    requires Inv(s) && op.Serve? && Enabled(s, op)
    ensures Inv(Apply(s, op))
  {
    var t := Apply(s, op);
    forall c | c in t.nodes ensures NodeInv(t, c) {
      assert NodeInv(s, c);
      if c == s.main {
        MainStays(s, t);
      } else if t.nodes[c] == s.nodes[c] {
        OtherNodeStays(s, t, c);
      } else {
        ReplicatedNodeInv(s, t, c, op);
      }
    }
  }

  lemma ExpireAtKeeps(node: Node, h: Handler)
    ensures ExpireAt(node, h).streamContext == node.streamContext
    ensures forall g :: g in Reflectors(ExpireAt(node, h)) ==> g in Reflectors(node)
    ensures OneService(node) ==> OneService(ExpireAt(node, h))
    ensures OwnFirst(node) && h != Reflectors(node)[0] ==> OwnFirst(ExpireAt(node, h))
  {
    var before, after := Reflectors(node), Reflectors(ExpireAt(node, h));
    if after != before {
      assert after == Without(before, h);
      assert forall g :: g in after ==> g in before;
    }
  }

  lemma ExpireKeepsInv(s: Server, op: Op)
    requires Inv(s) && op.Expire? && Enabled(s, op)
    ensures Inv(Apply(s, op))
  {
    var t := Apply(s, op);
    ExpireAtKeeps(s.nodes[op.at], op.h);
    forall c | c in t.nodes ensures NodeInv(t, c) {
      assert NodeInv(s, c);
      if c == s.main {
        forall g | g in Reflectors(s.nodes[c]) ensures MainHandler(t, g) {
          MainHandlerStays(s, t, g);
        }
      }
    }
  }

  lemma ContextEndsKeepsInv(s: Server, op: Op)
    requires Inv(s) && op.ContextEnds?
    ensures Inv(Apply(s, op))
  {
    var t := Apply(s, op);
    forall c | c in t.nodes ensures NodeInv(t, c) {
      assert NodeInv(s, c);
      if c == s.main {
        MainStays(s, t);
      } else {
        OtherNodeStays(s, t, c);
      }
    }
  }

  // ---------------------------------------------------------------- every sequence

  /** A server's life: each state follows from the one before by one operation. */
  ghost predicate IsLife(life: seq<Server>, ops: seq<Op>) {
    && |life| == |ops| + 1 && IsNew(life[0])
    && forall i :: 0 <= i < |ops| ==> Next(life, ops, i)
  }

  ghost predicate IsNew(s: Server) {
    exists main, id, ctx, own: Descriptor :: s == NewServer(main, id, ctx, own) && own.name == REFLECTION
  }

  predicate Next(life: seq<Server>, ops: seq<Op>, i: nat)
    requires |life| == |ops| + 1 && i < |ops|
  {
    Sound(life[i]) && Enabled(life[i], ops[i]) && life[i + 1] == Apply(life[i], ops[i])
  }

  lemma OpKeepsInv(s: Server, op: Op)
    requires Inv(s) && Enabled(s, op)
    ensures Inv(Apply(s, op))
  {
    match op
    case RegisterLocal(h) => RegisterLocalKeepsInv(s, h);
    case Splice(_, _, _, _, _, _) => SpliceKeepsInv(s, op);
    case Serve(_, _) => ServeKeepsInv(s, op);
    case ContextEnds(_) => ContextEndsKeepsInv(s, op);
    case Expire(_, _) => ExpireKeepsInv(s, op);
  }

  lemma NewIsSound(s: Server)
    requires IsNew(s)
    ensures Inv(s)
  {
    var main, id, ctx, own: Descriptor :| s == NewServer(main, id, ctx, own) && own.name == REFLECTION;
    NewServerInv(main, id, ctx, own);
  }

  lemma LifeStep(life: seq<Server>, ops: seq<Op>, i: nat)
    requires IsLife(life, ops) && 0 < i < |life| && Inv(life[i - 1])
    ensures Inv(life[i])
  {
    assert Next(life, ops, i - 1);
    OpKeepsInv(life[i - 1], ops[i - 1]);
  }

  lemma {:induction false} LifeKeepsInv(life: seq<Server>, ops: seq<Op>, i: nat)
    requires IsLife(life, ops) && i < |life|
    ensures Inv(life[i])
  {
    if i == 0 {
      NewIsSound(life[0]);
    } else {
      LifeKeepsInv(life, ops, i - 1);
      LifeStep(life, ops, i);
    }
  }

  /** As long as its stream lives, a controller answers a discovery request itself, and does
      not pass it on whole. */
  lemma ReflectionIsAnsweredLocally(life: seq<Server>, ops: seq<Op>, i: nat, c: Uuid)
    requires IsLife(life, ops) && i < |life| && c in life[i].nodes && life[i].nodes[c].streamContext !in life[i].ended
    ensures OwnFirst(life[i].nodes[c])
  {
    LifeKeepsInv(life, ops, i);
    assert NodeInv(life[i], c);
  }

  lemma EdgesOfServer(s: Server, net: Network, a: Uuid, b: Uuid)
    requires Inv(s) && a in s.nodes && a in net.nodes && net.nodes[a] == s.nodes[a] && Edge(net, a, b)
    ensures a == s.main && exists c :: c in s.nodes && c != s.main && c in net.peers && net.peers[c] == b
  {
    assert NodeInv(s, a);
    var h :| h in Reflectors(net.nodes[a]) && Forwards(net.nodes[a], h) && Target(net, h) == Some(b);
    assert Uniform(h);
    assert a != s.main ==> SplicedHandler(s.nodes[a], h);
    assert MainHandler(s, h);
  }

  /** The edges along which ListServices forwards lead from the main controller to peers
      of spliced streams; a spliced controller forwards nothing. */
  lemma EdgesAreSplices(life: seq<Server>, ops: seq<Op>, i: nat, net: Network, a: Uuid, b: Uuid)
    requires IsLife(life, ops) && i < |life|
    requires a in life[i].nodes && a in net.nodes && net.nodes[a] == life[i].nodes[a]
    requires Edge(net, a, b)
    ensures a == life[i].main && exists c :: c in life[i].nodes && c != life[i].main && c in net.peers && net.peers[c] == b
  {
    LifeKeepsInv(life, ops, i);
    EdgesOfServer(life[i], net, a, b);
  }

  /** So what a spliced controller reports is registered with itself. */
  lemma SplicedReportsOwn(life: seq<Server>, ops: seq<Op>, i: nat, net: Network, c: Uuid, forbidden: set<Uuid>, budget: nat, name: string)
    requires IsLife(life, ops) && i < |life|
    requires c in life[i].nodes && c != life[i].main && c in net.nodes && net.nodes[c] == life[i].nodes[c]
    requires Found(net, c, forbidden, budget, name)
    ensures name in Own(net, c)
  {
    var p, to :| WalkTo(net, p, c, to, forbidden) && |p| <= budget && name in Own(net, to);
    if |p| > 1 {
      assert Edge(net, p[0], p[1]);
      EdgesAreSplices(life, ops, i, net, c, p[1]);
    }
  }

  // ---------------------------------------------------------------- splices add edges

  /** The reflection handler a splice registers at the main controller. */
  function Reflector(op: Op, own: Descriptor): Handler
    requires op.Splice?
  {
    DefaultHandler(op.id, op.ctx, own, ControllerInvoker(op.ctrl, SPLICED))
  }

  /** The splice that led to `after` returned without an error, and the peer had reported
      the reflection service. */
  predicate Reported(op: Op, after: Server, own: Descriptor) {
    && op.Splice? && op.ctrl in after.spliced && op.discovered.Some?
    && own in op.discovered.value && own.name == REFLECTION && LIST_SERVICES in NamesOf(own)
  }

  lemma SpliceRegistersReflector(s: Server, op: Op, own: Descriptor)
    requires Sound(s) && Enabled(s, op) && Reported(op, Apply(s, op), own)
    ensures HasReflector(Apply(s, op), s.main, Reflector(op, own))
  {
    var main, hs := s.nodes[s.main], Forwarders(op);
    assert Returns(s, op);
    var r :| 0 <= r < |op.discovered.value| && op.discovered.value[r] == own;
    assert hs[r] == Reflector(op, own);
    RegisterAllKeeps(main, hs);
    ReflectorIsRegistered(main, hs, r, |hs|);
  }

  lemma {:induction false} ReflectorIsRegistered(node: Node, hs: seq<Handler>, r: nat, k: nat)
    requires r < k <= |hs| && NoPanic(node, hs, k) && hs[r].descriptor.name == REFLECTION
    ensures hs[r] in Reflectors(RegisterUpTo(node, hs, k))
  {
    if r == k - 1 {
      AcceptedReflector(RegisterUpTo(node, hs, r), hs[r]);
    } else {
      ReflectorIsRegistered(node, hs, r, k - 1);
      RegisterKeeps(RegisterUpTo(node, hs, k - 1), hs[k - 1]);
    }
  }

  lemma AcceptedReflector(node: Node, h: Handler)
    requires h.descriptor.name == REFLECTION && Accepts(ListFor(node, h), h)
    ensures h in Reflectors(Register(node, h))
  {
  }

  lemma {:induction false} WithoutKeepsOthers(data: seq<Handler>, g: Handler, h: Handler)
    requires g in data && g != h
    ensures g in Without(data, h)
  {
    if data[0] != h && data[0] != g {
      WithoutKeepsOthers(data[1..], g, h);
    }
  }

  /** The main controller has the reflection handler `h`, of another stream than its own. */
  predicate HasReflector(s: Server, main: Uuid, h: Handler) {
    s.main == main && main in s.nodes && s.nodes[main].streamContext != h.context && h in Reflectors(s.nodes[main])
  }

  /** It goes only when its own context ends. */
  lemma HandlerStays(s: Server, op: Op, main: Uuid, g: Handler)
    requires Sound(s) && Enabled(s, op) && HasReflector(s, main, g) && op != Expire(main, g)
    ensures HasReflector(Apply(s, op), main, g)
  {
    var node := s.nodes[main];
    match op
    case RegisterLocal(h) => RegisterKeeps(node, h);
    case Splice(_, _, _, _, _, _) =>
      RegisterAllKeeps(node, Forwarders(op));
    case Serve(_, _) => RegisterAllKeeps(node, Replicas(s, op));
    case ContextEnds(_) =>
    case Expire(_, h) =>
      if h != g {
        WithoutKeepsOthers(Reflectors(node), g, h);
      }
  }

  lemma HandlerLastsOneStep(life: seq<Server>, ops: seq<Op>, i: nat, main: Uuid, h: Handler)
    requires IsLife(life, ops) && 0 < i < |life| && HasReflector(life[i - 1], main, h) && ops[i - 1] != Expire(main, h)
    ensures HasReflector(life[i], main, h)
  {
    assert Next(life, ops, i - 1);
    HandlerStays(life[i - 1], ops[i - 1], main, h);
  }

  /** The handler `h` at `main` is not removed by the operations from `i` up to `j`. */
  predicate Kept(ops: seq<Op>, i: nat, j: nat, main: Uuid, h: Handler)
    requires i <= j <= |ops|
  {
    forall k :: i <= k < j ==> ops[k] != Expire(main, h)
  }

  lemma {:induction false} HandlerLasts(life: seq<Server>, ops: seq<Op>, i: nat, j: nat, main: Uuid, h: Handler)
    requires IsLife(life, ops) && i <= j < |life| && HasReflector(life[i], main, h) && Kept(ops, i, j, main, h)
    ensures HasReflector(life[j], main, h)
  {
    if i < j {
      HandlerLasts(life, ops, i, j - 1, main, h);
      HandlerLastsOneStep(life, ops, j, main, h);
    }
  }

  lemma SpliceAt(life: seq<Server>, ops: seq<Op>, i: nat, own: Descriptor)
    requires IsLife(life, ops) && i < |ops| && Reported(ops[i], life[i + 1], own)
    ensures HasReflector(life[i + 1], life[i].main, Reflector(ops[i], own))
  {
    assert Next(life, ops, i);
    SpliceRegistersReflector(life[i], ops[i], own);
  }

  lemma ReflectorForwards(s: Server, op: Op, own: Descriptor, main: Uuid, net: Network)
    requires op.Splice? && HasReflector(s, main, Reflector(op, own)) && LIST_SERVICES in NamesOf(own)
    requires main in net.nodes && net.nodes[main] == s.nodes[main]
    requires op.ctrl in net.peers && net.peers[op.ctrl] in net.nodes
    ensures Edge(net, main, net.peers[op.ctrl])
  {
    var h := Reflector(op, own);
    assert h.invokers[LIST_SERVICES] == ControllerInvoker(op.ctrl, SPLICED);
    assert Forwards(net.nodes[main], h) && Target(net, h) == Some(net.peers[op.ctrl]);
  }

  lemma ReflectorLasts(life: seq<Server>, ops: seq<Op>, i: nat, j: nat, own: Descriptor)
    requires IsLife(life, ops) && i < j < |life| && Reported(ops[i], life[i + 1], own)
    requires Kept(ops, i + 1, j, life[i].main, Reflector(ops[i], own))
    ensures HasReflector(life[j], life[i].main, Reflector(ops[i], own))
  {
    SpliceAt(life, ops, i, own);
    HandlerLasts(life, ops, i + 1, j, life[i].main, Reflector(ops[i], own));
  }

  /** From a splice whose peer reported the reflection service, and as long as the spliced
      stream lives, the main controller forwards discovery to that peer, whatever else is
      registered, spliced, served or removed. */
  lemma SpliceAddsEdge(life: seq<Server>, ops: seq<Op>, i: nat, j: nat, own: Descriptor, net: Network)
    requires IsLife(life, ops) && i < j < |life| && Reported(ops[i], life[i + 1], own)
    requires Kept(ops, i + 1, j, life[i].main, Reflector(ops[i], own))
    requires life[j].main in net.nodes && life[j].main in life[j].nodes && net.nodes[life[j].main] == life[j].nodes[life[j].main]
    requires ops[i].ctrl in net.peers && net.peers[ops[i].ctrl] in net.nodes
    ensures Edge(net, life[j].main, net.peers[ops[i].ctrl])
  {
    ReflectorLasts(life, ops, i, j, own);
    ReflectorForwards(life[j], ops[i], own, life[i].main, net);
  }
}
