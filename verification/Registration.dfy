/** What the operations of a server register and remove, at which controllers: told of the
    lists afterwards, handler by handler. */
module Registration {
  import opened Messages
  import opened Registry
  import opened Discovery
  import opened Topology

  predicate Has(node: Node, h: Handler) { h in ListFor(node, h) }

  // ---------------------------------------------------------------- registering several handlers

  /** Handlers for the same service have the same descriptor, those that are there already
      included. */
  ghost predicate Agree(node: Node, hs: seq<Handler>) {
    && (forall h, g :: h in hs && g in ListFor(node, h) ==> g.descriptor == h.descriptor)
    && (forall g, h :: g in hs && h in hs && g.descriptor.name == h.descriptor.name ==> g.descriptor == h.descriptor)
  }

  /** Where the handlers of a list come from. */
  lemma {:induction false} ListOrigin(node: Node, hs: seq<Handler>, k: nat, h: Handler, g: Handler)
    requires k <= |hs| && g in ListFor(RegisterUpTo(node, hs, k), h)
    ensures g in ListFor(node, h) || (g in hs && g.descriptor.name == h.descriptor.name)
  {
    if k > 0 {
      if g in ListFor(RegisterUpTo(node, hs, k - 1), h) {
        ListOrigin(node, hs, k - 1, h, g);
      } else {
        assert g == hs[k - 1];
      }
    }
  }

  lemma {:induction false} AgreedAreAccepted(node: Node, hs: seq<Handler>, k: nat)
    requires k <= |hs| && Agree(node, hs)
    ensures NoPanic(node, hs, k)
  {
    if k > 0 {
      AgreedAreAccepted(node, hs, k - 1);
      var h, list := hs[k - 1], ListFor(RegisterUpTo(node, hs, k - 1), hs[k - 1]);
      forall i | 0 <= i < |list| ensures list[i].descriptor == h.descriptor {
        ListOrigin(node, hs, k - 1, h, list[i]);
      }
    }
  }

  lemma RegisterHas(node: Node, h: Handler, g: Handler)
    ensures Has(node, g) ==> Has(Register(node, h), g)
    ensures Accepts(ListFor(node, h), h) ==> Has(Register(node, h), h)
  {
  }

  lemma {:induction false} RegisterUpToHas(node: Node, hs: seq<Handler>, k: nat, g: Handler)
    requires k <= |hs|
    ensures Has(node, g) ==> Has(RegisterUpTo(node, hs, k), g)
    ensures NoPanic(node, hs, k) && g in hs[..k] ==> Has(RegisterUpTo(node, hs, k), g)
  {
    if k > 0 {
      RegisterUpToHas(node, hs, k - 1, g);
      RegisterHas(RegisterUpTo(node, hs, k - 1), hs[k - 1], g);
      assert hs[..k] == hs[..k - 1] + [hs[k - 1]];
    }
  }

  /** Where nothing panics all of the handlers are registered, and those that were there
      stay. */
  lemma RegisterAllHas(node: Node, hs: seq<Handler>, g: Handler)
    ensures Has(node, g) ==> Has(RegisterAll(node, hs), g)
    ensures AllRegistered(node, hs) && g in hs ==> Has(RegisterAll(node, hs), g)
  {
    RegisterUpToHas(node, hs, |hs|, g);
    assert hs[..|hs|] == hs;
  }

  // ---------------------------------------------------------------- what is discovered

  /** The handler is one for `d`, its context is `ctx`, and all of its methods go to
      `invoker`. */
  ghost predicate MadeFor(h: Handler, d: Descriptor, ctx: Context, invoker: Invoker) {
    h.descriptor == d && h.context == ctx && WellMade(h, invoker)
  }

  ghost predicate Serves(node: Node, d: Descriptor, ctx: Context, invoker: Invoker) {
    exists h :: d.name in node.services && h in node.services[d.name] && MadeFor(h, d, ctx, invoker)
  }

  /** What the controller has for the names of `ds` is described as in `ds`. */
  predicate Known(node: Node, ds: seq<Descriptor>) {
    forall d :: d in ds && d.name in node.services ==> forall g :: g in node.services[d.name] ==> g.descriptor == d
  }

  lemma HandlersAreLegal(id: nat, ctx: Context, ds: seq<Descriptor>, invoker: Invoker, d: Descriptor)
    requires AllLegal(ds) && d in ds
    ensures DefaultHandler(id, ctx, d, invoker) in Handlers(id, ctx, ds, invoker)
    ensures MadeFor(DefaultHandler(id, ctx, d, invoker), d, ctx, invoker)
  {
    var i :| 0 <= i < |ds| && ds[i] == d;
    assert Handlers(id, ctx, ds, invoker)[i] == DefaultHandler(id, ctx, d, invoker);
    DefaultHandlerIsWellMade(id, ctx, d, invoker);
  }

  lemma HandlersAgree(node: Node, id: nat, ctx: Context, ds: seq<Descriptor>, invoker: Invoker)
    requires DistinctNames(ds) && Known(node, ds)
    ensures AllRegistered(node, Handlers(id, ctx, ds, invoker))
  {
    var hs := Handlers(id, ctx, ds, invoker);
    assert forall h :: h in hs ==> h.descriptor in ds;
    assert Agree(node, hs) by {
      forall g, h | g in hs && h in hs && g.descriptor.name == h.descriptor.name ensures g.descriptor == h.descriptor {
        SameName(ds, g.descriptor, h.descriptor);
      }
    }
    AgreedAreAccepted(node, hs, |hs|);
  }

  lemma SameName(ds: seq<Descriptor>, d: Descriptor, e: Descriptor)
    requires DistinctNames(ds) && d in ds && e in ds && d.name == e.name
    ensures d == e
  {
  }

  lemma DiscoveredIsServed(node: Node, id: nat, ctx: Context, ds: seq<Descriptor>, invoker: Invoker, d: Descriptor)
    requires AllLegal(ds) && AllRegistered(node, Handlers(id, ctx, ds, invoker)) && d in ds
    ensures Serves(RegisterAll(node, Handlers(id, ctx, ds, invoker)), d, ctx, invoker)
  {
    HandlersAreLegal(id, ctx, ds, invoker, d);
    RegisterAllHas(node, Handlers(id, ctx, ds, invoker), DefaultHandler(id, ctx, d, invoker));
  }

  /** Registering what was discovered, where descriptors agree: everything is served, and
      what was there stays. */
  lemma AllIsServed(node: Node, id: nat, ctx: Context, ds: seq<Descriptor>, invoker: Invoker)
    requires AllLegal(ds) && DistinctNames(ds) && Known(node, ds)
    ensures var hs := Handlers(id, ctx, ds, invoker);
      && AllRegistered(node, hs) && (forall d :: d in ds ==> Serves(RegisterAll(node, hs), d, ctx, invoker))
      && (forall h :: Has(node, h) ==> Has(RegisterAll(node, hs), h))
  {
    var hs := Handlers(id, ctx, ds, invoker);
    HandlersAgree(node, id, ctx, ds, invoker);
    forall d | d in ds ensures Serves(RegisterAll(node, hs), d, ctx, invoker) {
      DiscoveredIsServed(node, id, ctx, ds, invoker, d);
    }
    forall h | Has(node, h) ensures Has(RegisterAll(node, hs), h) {
      RegisterAllHas(node, hs, h);
    }
  }

  // ---------------------------------------------------------------- Splice

  /** Descriptors of one service agree: those that were discovered, those of the main
      controller, and those of the services that are visible to the new one. */
  ghost predicate SpliceAgrees(s: Server, op: Op, ds: seq<Descriptor>)
    requires op.Splice? && s.main in s.nodes
  {
    && AllLegal(ds) && DistinctNames(ds) && Known(s.nodes[s.main], ds)
    && (forall g, h :: g in op.visible && h in op.visible && g.descriptor.name == h.descriptor.name ==> g.descriptor == h.descriptor)
    && (forall h :: h in op.visible && h.descriptor.name == REFLECTION ==> h.descriptor == op.own)
  }

  /** A splice whose discovery succeeds registers a handler on the spliced stream for every
      discovered service at the main controller, which keeps what it had; no other
      controller changes but the new one. */
  lemma SpliceRegisters(s: Server, op: Op, ds: seq<Descriptor>)
    requires Sound(s) && Enabled(s, op) && op.Splice? && op.discovered == Some(ds) && SpliceAgrees(s, op, ds)
    ensures var t := Apply(s, op);
      && t.spliced == s.spliced + [op.ctrl] && t.main == s.main && t.nodes.Keys == s.nodes.Keys + {op.ctrl}
      && (forall c :: c in s.nodes && c != s.main ==> t.nodes[c] == s.nodes[c])
      && (forall d :: d in ds ==> Serves(t.nodes[s.main], d, op.ctx, ControllerInvoker(op.ctrl, TopologyFlags(false, false, true))))
      && (forall h :: Has(s.nodes[s.main], h) ==> Has(t.nodes[s.main], h))
  {
    VisibleAreRegistered(op);
    AllIsServed(s.nodes[s.main], op.id, op.ctx, ds, ControllerInvoker(op.ctrl, SPLICED));
    SpliceChanges(s, op, ds);
  }

  lemma NewNode(s: Server, op: Op)
    requires Sound(s) && Enabled(s, op) && op.Splice?
    ensures op.ctrl in Apply(s, op).nodes && Apply(s, op).nodes[op.ctrl] == SplicedNode(op)
  {
  }

  lemma VisibleIsListed(s: Server, op: Op, k: string, h: Handler)
    requires Enabled(s, op) && op.Splice? && k in s.nodes[s.main].services && h in s.nodes[s.main].services[k]
    requires h.flags.local && h.descriptor.splicedClients
    ensures h in op.visible
  {
    assert IsVisible(h);
  }

  /** The new controller gets every local handler of the main one that spliced clients may
      see, */
  lemma SpliceShowsVisible(s: Server, op: Op, ds: seq<Descriptor>, k: string, h: Handler)
    requires Sound(s) && Enabled(s, op) && op.Splice? && SpliceAgrees(s, op, ds)
    requires k in s.nodes[s.main].services && h in s.nodes[s.main].services[k] && h.flags.local && h.descriptor.splicedClients
    ensures op.ctrl in Apply(s, op).nodes && Has(Apply(s, op).nodes[op.ctrl], h)
  {
    NewNode(s, op);
    VisibleIsListed(s, op, k, h);
    VisibleAreRegistered(op);
  }

  lemma OnlyVisibleAreShown(op: Op, h: Handler)
    requires op.Splice? && op.own.name == REFLECTION && Has(SplicedNode(op), h) && h.descriptor.name != REFLECTION
    ensures h in op.visible
  {
    var node := NewController(op.ctrl, op.id, op.ctx, op.own, SPLICED);
    NewControllerDescribes(op.ctrl, op.id, op.ctx, op.own, SPLICED);
    assert ListFor(node, h) == [];
    ListOrigin(node, op.visible, |op.visible|, h, h);
  }

  /** and no other but those of the reflection service. */
  lemma SpliceShowsNoOther(s: Server, op: Op, h: Handler)
    requires Sound(s) && Enabled(s, op) && op.Splice?
    requires op.ctrl in Apply(s, op).nodes && Has(Apply(s, op).nodes[op.ctrl], h) && h.descriptor.name != REFLECTION
    ensures h.flags.local && h.descriptor.splicedClients && Has(s.nodes[s.main], h)
  {
    NewNode(s, op);
    OnlyVisibleAreShown(op, h);
    assert IsVisible(h);
  }

  /** Which controllers a splice that returns changes. */
  lemma SpliceChanges(s: Server, op: Op, ds: seq<Descriptor>)
    requires Sound(s) && Enabled(s, op) && op.Splice? && op.discovered == Some(ds) && Starts(op) && AllLegal(ds)
    requires AllRegistered(s.nodes[s.main], Handlers(op.id, op.ctx, ds, ControllerInvoker(op.ctrl, SPLICED)))
    ensures var t := Apply(s, op);
      && t.spliced == s.spliced + [op.ctrl] && t.main == s.main && t.nodes.Keys == s.nodes.Keys + {op.ctrl}
      && (forall c :: c in s.nodes && c != s.main ==> t.nodes[c] == s.nodes[c])
      && t.nodes[s.main] == RegisterAll(s.nodes[s.main], Handlers(op.id, op.ctx, ds, ControllerInvoker(op.ctrl, SPLICED)))
      && t.nodes[op.ctrl] == SplicedNode(op)
  {
  }

  lemma NewControllerLists(op: Op, h: Handler, g: Handler)
    requires op.Splice? && op.own.name == REFLECTION && g in ListFor(NewController(op.ctrl, op.id, op.ctx, op.own, SPLICED), h)
    ensures h.descriptor.name == REFLECTION && g.descriptor == op.own
  {
    NewControllerDescribes(op.ctrl, op.id, op.ctx, op.own, SPLICED);
  }

  lemma VisibleAreRegistered(op: Op)
    requires op.Splice? && op.own.name == REFLECTION
    requires forall g, h :: g in op.visible && h in op.visible && g.descriptor.name == h.descriptor.name ==> g.descriptor == h.descriptor
    requires forall h :: h in op.visible && h.descriptor.name == REFLECTION ==> h.descriptor == op.own
    ensures Starts(op) && forall h :: h in op.visible ==> Has(SplicedNode(op), h)
  {
    var node := NewController(op.ctrl, op.id, op.ctx, op.own, SPLICED);
    forall h, g | h in op.visible && g in ListFor(node, h) ensures g.descriptor == h.descriptor {
      NewControllerLists(op, h, g);
    }
    AgreedAreAccepted(node, op.visible, |op.visible|);
    forall h | h in op.visible ensures Has(SplicedNode(op), h) {
      RegisterAllHas(node, op.visible, h);
    }
  }

  /** A new controller has the reflection service twice: its own implementation, and then
      its peer's. */
  lemma NewControllerDescribes(uuid: Uuid, id: nat, ctx: Context, d: Descriptor, base: TopologyFlags)
    requires d.name == REFLECTION
    ensures var node := NewController(uuid, id, ctx, d, base);
      && node.services.Keys == {REFLECTION} && |Reflectors(node)| == 2 && node.streamContext == ctx
      && MadeFor(Reflectors(node)[0], d, ctx, LocalInvoker(id, TopologyFlags(true, base.self, base.spliced)))
      && MadeFor(Reflectors(node)[1], d, ctx, ControllerInvoker(uuid, base))
  {
    TwoRegistrations(ctx, OwnReflector(id, ctx, d, base), DefaultHandler(id, ctx, d, ControllerInvoker(uuid, base)));
    DefaultIsMadeFor(id, ctx, d, ControllerInvoker(uuid, base));
    DefaultIsMadeFor(id, ctx, d, LocalInvoker(id, base.(local := true)));
  }

  lemma DefaultIsMadeFor(id: nat, ctx: Context, d: Descriptor, invoker: Invoker)
    ensures MadeFor(DefaultHandler(id, ctx, d, invoker), d, ctx, invoker)
  {
    DefaultHandlerIsWellMade(id, ctx, d, invoker);
  }

  // ---------------------------------------------------------------- Serve

  lemma {:induction false} AllAreServed(s: Server, hs: seq<Handler>, i: nat)
    requires Sound(s) && i <= |s.spliced| && forall c :: c in s.spliced ==> AllRegistered(s.nodes[c], hs)
    ensures ServedFrom(s, hs, true, i) == |s.spliced|
    decreases |s.spliced| - i
  {
    if i < |s.spliced| {
      assert s.spliced[i] in s.spliced;
      AllAreServed(s, hs, i + 1);
    }
  }

  /** A serve whose discovery succeeds registers, at every controller of a splice that
      returned, a handler on the server's own stream for every discovered service; the
      main controller and all others stay as they are. */
  lemma ServeRegisters(s: Server, op: Op, ds: seq<Descriptor>)
    requires Sound(s) && s.main !in s.spliced && op.Serve? && op.discovered == Some(ds)
    requires AllLegal(ds) && DistinctNames(ds) && forall c :: c in s.spliced ==> Known(s.nodes[c], ds)
    ensures var t := Apply(s, op);
      && t.spliced == s.spliced && t.main == s.main && t.nodes.Keys == s.nodes.Keys
      && (forall c :: c in s.nodes && c !in s.spliced ==> t.nodes[c] == s.nodes[c])
      && (forall c, d :: c in s.spliced && d in ds ==>
            Serves(t.nodes[c], d, s.nodes[s.main].streamContext, ControllerInvoker(s.main, TopologyFlags(false, false, false))))
      && (forall c, h :: c in s.spliced && Has(s.nodes[c], h) ==> Has(t.nodes[c], h))
  {
    var t, ctx, inv := Apply(s, op), s.nodes[s.main].streamContext, ControllerInvoker(s.main, NO_FLAGS);
    var hs := Handlers(op.id, ctx, ds, inv);
    forall c | c in s.spliced ensures AllRegistered(s.nodes[c], hs) {
      AllIsServed(s.nodes[c], op.id, ctx, ds, inv);
    }
    AllAreServed(s, hs, 0);
    assert s.spliced[..|s.spliced|] == s.spliced;
    forall c | c in s.spliced
      ensures (forall d :: d in ds ==> Serves(t.nodes[c], d, ctx, inv)) && (forall h :: Has(s.nodes[c], h) ==> Has(t.nodes[c], h))
    {
      AllIsServed(s.nodes[c], op.id, ctx, ds, inv);
    }
  }

  // ---------------------------------------------------------------- the end of a handler

  lemma {:induction false} WithoutTakesOne(data: seq<Handler>, h: Handler)
    ensures multiset(Without(data, h)) == multiset(data) - multiset{h}
  {
    if data != [] {
      var head, rest := data[0], data[1..];
      assert data == [head] + rest;
      if head != h {
        WithoutTakesOne(rest, h);
        assert multiset(Without(data, h)) == multiset{head} + multiset(Without(rest, h));
      }
    }
  }

  /** The end of a handler removes one entry of it, at one controller, and nothing else. */
  lemma ExpireTakesOne(s: Server, at: Uuid, h: Handler)
    requires Sound(s) && Enabled(s, Expire(at, h))
    ensures var t := Apply(s, Expire(at, h));
      && (forall c :: c in s.nodes && c != at ==> t.nodes[c] == s.nodes[c])
      && multiset(ListFor(t.nodes[at], h)) == multiset(ListFor(s.nodes[at], h)) - multiset{h}
      && (forall k :: k in s.nodes[at].services && k != h.descriptor.name ==>
            k in t.nodes[at].services && t.nodes[at].services[k] == s.nodes[at].services[k])
  {
    ExpireAtList(s.nodes[at], h);
    WithoutTakesOne(ListFor(s.nodes[at], h), h);
  }

  lemma ExpireAtList(node: Node, h: Handler)
    ensures ListFor(ExpireAt(node, h), h) == Without(ListFor(node, h), h)
    ensures forall k :: k in node.services && k != h.descriptor.name ==>
      k in ExpireAt(node, h).services && ExpireAt(node, h).services[k] == node.services[k]
  {
  }

  lemma OnlyMoreEnd(s: Server, op: Op)
    requires Sound(s) && Enabled(s, op)
    ensures s.ended <= Apply(s, op).ended && s.nodes.Keys <= Apply(s, op).nodes.Keys
  {
  }

  lemma {:induction false} EndedStays(life: seq<Server>, ops: seq<Op>, i: nat, j: nat)
    requires IsLife(life, ops) && i <= j < |life|
    ensures life[i].ended <= life[j].ended && life[i].nodes.Keys <= life[j].nodes.Keys
  {
    if i < j {
      EndedStays(life, ops, i, j - 1);
      assert Next(life, ops, j - 1);
      OnlyMoreEnd(life[j - 1], ops[j - 1]);
    }
  }

  /** From the end of a context on, its handlers can be removed, wherever they are. */
  lemma EndedCanBeRemoved(life: seq<Server>, ops: seq<Op>, i: nat, j: nat, at: Uuid, h: Handler)
    requires IsLife(life, ops) && i < j < |life| && ops[i] == ContextEnds(h.context) && at in life[i].nodes
    ensures Enabled(life[j], Expire(at, h))
  {
    assert Next(life, ops, i);
    EndedStays(life, ops, i + 1, j);
  }

  // ---------------------------------------------------------------- what is reported

  /** Lists are filed under the name of the one service they have handlers for. */
  predicate Filed(node: Node) {
    forall k :: k in node.services ==> SameDescriptors(node.services[k]) && forall h :: h in node.services[k] ==> h.descriptor.name == k
  }

  predicate AllFiled(s: Server) { forall c :: c in s.nodes ==> Filed(s.nodes[c]) }

  lemma RegisterFiles(node: Node, h: Handler)
    requires Filed(node)
    ensures Filed(Register(node, h))
  {
  }

  lemma {:induction false} RegisterUpToFiles(node: Node, hs: seq<Handler>, k: nat)
    requires k <= |hs| && Filed(node)
    ensures Filed(RegisterUpTo(node, hs, k))
  {
    if k > 0 {
      RegisterUpToFiles(node, hs, k - 1);
      RegisterFiles(RegisterUpTo(node, hs, k - 1), hs[k - 1]);
    }
  }

  lemma NewControllerFiles(uuid: Uuid, id: nat, ctx: Context, d: Descriptor, base: TopologyFlags)
    ensures Filed(NewController(uuid, id, ctx, d, base))
  {
    var node, own := Node(ctx, map[]), OwnReflector(id, ctx, d, base);
    RegisterFiles(node, own);
    RegisterFiles(Register(node, own), DefaultHandler(id, ctx, d, ControllerInvoker(uuid, base)));
  }

  lemma ExpireFiles(node: Node, h: Handler)
    requires Filed(node)
    ensures Filed(ExpireAt(node, h))
  {
    var list := ListFor(node, h);
    assert forall g :: g in Without(list, h) ==> g in list;
    assert SameDescriptors(Without(list, h)) by {
      forall i, j | 0 <= i < |Without(list, h)| && 0 <= j < |Without(list, h)|
        ensures Without(list, h)[i].descriptor == Without(list, h)[j].descriptor
      {
        assert Without(list, h)[i] in list && Without(list, h)[j] in list;
      }
    }
  }

  lemma OpFiles(s: Server, op: Op)
    requires Sound(s) && Enabled(s, op) && AllFiled(s)
    ensures AllFiled(Apply(s, op))
  {
    match op
    case RegisterLocal(h) => RegisterFiles(s.nodes[s.main], h);
    case Splice(ctrl, id, ctx, own, visible, _) =>
      NewControllerFiles(ctrl, id, ctx, own, SPLICED);
      RegisterUpToFiles(NewController(ctrl, id, ctx, own, SPLICED), visible, |visible|);
      RegisterUpToFiles(s.nodes[s.main], Forwarders(op), |Forwarders(op)|);
    case Serve(_, _) =>
      forall c | c in s.nodes ensures Filed(RegisterAll(s.nodes[c], Replicas(s, op))) {
        RegisterUpToFiles(s.nodes[c], Replicas(s, op), |Replicas(s, op)|);
      }
    case ContextEnds(_) =>
    case Expire(at, h) => ExpireFiles(s.nodes[at], h);
  }

  lemma NewFiles(s: Server)
    requires IsNew(s)
    ensures AllFiled(s)
  {
    var main, id, ctx, own: Descriptor :| s == NewServer(main, id, ctx, own) && own.name == REFLECTION;
    NewControllerFiles(main, id, ctx, own, NO_FLAGS);
  }

  lemma {:induction false} LifeFiles(life: seq<Server>, ops: seq<Op>, i: nat)
    requires IsLife(life, ops) && i < |life|
    ensures AllFiled(life[i])
  {
    if i == 0 {
      NewFiles(life[0]);
    } else {
      LifeFiles(life, ops, i - 1);
      assert Next(life, ops, i - 1);
      OpFiles(life[i - 1], ops[i - 1]);
    }
  }

  /** Through every life: a controller alone, asked with one hop, reports the name of a
      service if and only if it has a handler for it, local or not. */
  lemma ReportsItsHandlers(life: seq<Server>, ops: seq<Op>, i: nat, net: Network, c: Uuid, forbidden: set<Uuid>, name: string)
    requires IsLife(life, ops) && i < |life| && c in life[i].nodes && c in net.nodes && net.nodes[c] == life[i].nodes[c]
    requires c !in forbidden
    ensures Found(net, c, forbidden, 1, name) <==>
      name in life[i].nodes[c].services && exists h :: h in life[i].nodes[c].services[name] && h.descriptor.name == name
  {
    LifeFiles(life, ops, i);
    assert Filed(net.nodes[c]);
    if name in net.nodes[c].services {
      forall h | h in net.nodes[c].services[name] ensures Found(net, c, forbidden, 1, name) {
        HandlersAreReported(net, c, forbidden, 1, name, h);
      }
    }
    if Found(net, c, forbidden, 1, name) {
      var k, h := OnlyHandlersAreReported(net, c, forbidden, name);
    }
  }

  lemma {:induction false} HandlerIsKept(life: seq<Server>, ops: seq<Op>, i: nat, j: nat, c: Uuid, h: Handler)
    requires IsLife(life, ops) && i <= j < |life| && c in life[i].nodes && Has(life[i].nodes[c], h) && Kept(ops, i, j, c, h)
    ensures c in life[j].nodes && Has(life[j].nodes[c], h)
  {
    if i < j {
      HandlerIsKept(life, ops, i, j - 1, c, h);
      assert Next(life, ops, j - 1);
      OpKeepsHandler(life[j - 1], ops[j - 1], c, h);
    }
  }

  /** A handler stays until it is removed itself. */
  lemma OpKeepsHandler(s: Server, op: Op, c: Uuid, g: Handler)
    requires Sound(s) && Enabled(s, op) && c in s.nodes && Has(s.nodes[c], g) && op != Expire(c, g)
    ensures c in Apply(s, op).nodes && Has(Apply(s, op).nodes[c], g)
  {
    match op
    case RegisterLocal(h) => RegisterHas(s.nodes[s.main], h, g);
    case Splice(_, _, _, _, _, _) => RegisterAllHas(s.nodes[s.main], Forwarders(op), g);
    case Serve(_, _) => RegisterAllHas(s.nodes[c], Replicas(s, op), g);
    case ContextEnds(_) =>
    case Expire(at, h) =>
      if at == c && h != g && h.descriptor.name == g.descriptor.name {
        WithoutKeepsOthers(ListFor(s.nodes[c], g), g, h);
      }
  }

  /** From a splice that returned, and as long as the handler it registered for it is not
      removed, a discovered service is reported by the main controller itself, whatever else
      is registered, spliced, served or removed. */
  lemma SplicedIsReported(life: seq<Server>, ops: seq<Op>, i: nat, j: nat, ds: seq<Descriptor>, d: Descriptor, net: Network, forbidden: set<Uuid>)
    requires IsLife(life, ops) && i < j < |life| && ops[i].Splice? && ops[i].discovered == Some(ds) && ops[i].ctrl in life[i + 1].spliced
    requires d in ds && Kept(ops, i + 1, j, life[i].main, DefaultHandler(ops[i].id, ops[i].ctx, d, ControllerInvoker(ops[i].ctrl, SPLICED)))
    requires life[i].main in net.nodes && life[i].main in life[j].nodes && net.nodes[life[i].main] == life[j].nodes[life[i].main]
    requires life[i].main !in forbidden
    ensures Found(net, life[i].main, forbidden, 1, d.name)
  {
    var op, main := ops[i], life[i].main;
    var h := DefaultHandler(op.id, op.ctx, d, ControllerInvoker(op.ctrl, SPLICED));
    SpliceHas(life, ops, i, ds, d);
    HandlerIsKept(life, ops, i + 1, j, main, h);
    LifeFiles(life, ops, j);
    HandlersAreReported(net, main, forbidden, 1, d.name, h);
  }

  lemma SpliceHas(life: seq<Server>, ops: seq<Op>, i: nat, ds: seq<Descriptor>, d: Descriptor)
    requires IsLife(life, ops) && i < |ops| && ops[i].Splice? && ops[i].discovered == Some(ds) && ops[i].ctrl in life[i + 1].spliced && d in ds
    ensures life[i].main in life[i + 1].nodes
      && Has(life[i + 1].nodes[life[i].main], DefaultHandler(ops[i].id, ops[i].ctx, d, ControllerInvoker(ops[i].ctrl, SPLICED)))
  {
    var s, op := life[i], ops[i];
    assert Next(life, ops, i);
    assert Returns(s, op);
    HandlersAreLegal(op.id, op.ctx, ds, ControllerInvoker(op.ctrl, SPLICED), d);
    RegisterAllHas(s.nodes[s.main], Forwarders(op), DefaultHandler(op.id, op.ctx, d, ControllerInvoker(op.ctrl, SPLICED)));
  }
}
