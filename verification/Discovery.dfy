/** Service discovery over a graph of spliced controllers.

    ListServices answers with the services of its own controller and forwards the
    request to the peers of spliced streams.  Loops in the graph are cut by the list
    of visited controllers that travels with the request, depth by a signed 32-bit
    hop counter for which only zero means "stop".

    The graph is static while a discovery runs.  A peer that cannot be reached is
    absent from the network, and forwarding to it fails. */
module Discovery {
  import opened Messages
  import opened Registry
  import opened Sets

  type Int32 = x: int | -0x8000_0000 <= x < 0x8000_0000

  const REFLECTION := "totem.ServerReflection"
  const LIST_SERVICES := "ListServices"

  datatype Node = Node(streamContext: Context, services: map<string, seq<Handler>>)

  /** `peers` maps a controller to the one at the other end of its stream. */
  datatype Network = Network(nodes: map<Uuid, Node>, peers: map<Uuid, Uuid>)

  datatype DiscoveryRequest = DiscoveryRequest(initiator: Uuid, visited: seq<Uuid>, remainingHops: Int32)

  // ---------------------------------------------------------------- the graph

  /** The handlers of the reflection service that ListServices does not skip. */
  predicate Forwards(node: Node, h: Handler) {
    && LIST_SERVICES in h.invokers
    && var flags := FlagsOf(h.invokers[LIST_SERVICES]);
       !flags.local && flags.spliced && h.context != node.streamContext
  }

  /** The controller at which a forwarded request arrives, if it can be reached. */
  function Target(net: Network, h: Handler): Option<Uuid>
    requires LIST_SERVICES in h.invokers
  {
    match h.invokers[LIST_SERVICES]
    case LocalInvoker(_, _) => None
    case ControllerInvoker(c, _) =>
      if c in net.peers && net.peers[c] in net.nodes then Some(net.peers[c]) else None
  }

  function Reflectors(node: Node): seq<Handler> {
    if REFLECTION in node.services then node.services[REFLECTION] else []
  }

  predicate Edge(net: Network, a: Uuid, b: Uuid) {
    && a in net.nodes
    && exists h :: h in Reflectors(net.nodes[a]) && Forwards(net.nodes[a], h) && Target(net, h) == Some(b)
  }

  /** The names a controller reports for itself: one for each non-empty list. */
  function Own(net: Network, a: Uuid): set<string>
    requires a in net.nodes
  {
    var services := net.nodes[a].services;
    set k | k in services && services[k] != [] :: services[k][0].descriptor.name
  }

  // ---------------------------------------------------------------- bounded reachability

  /** A walk visits `|p|` controllers, the first and the last included; it may visit
      one more than once. */
  ghost predicate Walk(net: Network, p: seq<Uuid>) {
    && p != []
    && (forall i :: 0 <= i < |p| ==> p[i] in net.nodes)
    && (forall i, j :: 0 <= i < j < |p| && j == i + 1 ==> Edge(net, p[i], p[j]))
  }

  predicate Avoids(p: seq<Uuid>, forbidden: set<Uuid>) {
    forall i :: 0 <= i < |p| ==> p[i] !in forbidden
  }

  ghost predicate WalkTo(net: Network, p: seq<Uuid>, from: Uuid, to: Uuid, forbidden: set<Uuid>) {
    Walk(net, p) && p[0] == from && p[|p| - 1] == to && Avoids(p, forbidden)
  }

  /** `name` is registered at a controller that some walk of at most `budget`
      controllers reaches without touching a forbidden one. */
  ghost predicate Found(net: Network, from: Uuid, forbidden: set<Uuid>, budget: nat, name: string) {
    exists p, to :: WalkTo(net, p, from, to, forbidden) && |p| <= budget && name in Own(net, to)
  }

  /** The same without a limit on the length of the walk. */
  ghost predicate FoundAnywhere(net: Network, from: Uuid, forbidden: set<Uuid>, name: string) {
    exists p, to :: WalkTo(net, p, from, to, forbidden) && name in Own(net, to)
  }

  /** `d` is the descriptor of the oldest handler of some service at `a`. */
  predicate Offers(net: Network, a: Uuid, d: Descriptor)
    requires a in net.nodes
  {
    exists k :: k in net.nodes[a].services && net.nodes[a].services[k] != [] && net.nodes[a].services[k][0].descriptor == d
  }

  /** The same as `Found`, of a descriptor. */
  ghost predicate Offered(net: Network, from: Uuid, forbidden: set<Uuid>, budget: nat, d: Descriptor) {
    exists p, to :: WalkTo(net, p, from, to, forbidden) && |p| <= budget && Offers(net, to, d)
  }

  lemma WalkSuffix(net: Network, p: seq<Uuid>, i: nat)
    requires Walk(net, p) && i < |p|
    ensures Walk(net, p[i..])
  {
    var q := p[i..];
    forall a, b | 0 <= a < b < |q| && b == a + 1 ensures Edge(net, q[a], q[b]) {
      assert Edge(net, p[i + a], p[i + b]);
    }
  }

  lemma WalkPrepend(net: Network, a: Uuid, p: seq<Uuid>)
    requires Walk(net, p) && Edge(net, a, p[0])
    ensures Walk(net, [a] + p)
  {
    var q := [a] + p;
    forall i, j | 0 <= i < j < |q| && j == i + 1 ensures Edge(net, q[i], q[j]) {
      if i > 0 {
        assert Edge(net, p[i - 1], p[j - 1]);
      }
    }
  }

  /** Where a walk visits `a` for the last time. */
  lemma {:induction false} LastVisit(p: seq<Uuid>, a: Uuid) returns (j: nat)
    requires p != [] && p[0] == a
    ensures j < |p| && p[j] == a
    ensures forall i :: j < i < |p| ==> p[i] != a
  {
    if p[|p| - 1] == a {
      j := |p| - 1;
    } else {
      j := LastVisit(p[..|p| - 1], a);
    }
  }

  /** A walk from `a` that ends elsewhere can be cut so that it leaves `a` once, never
      to return; what is left is shorter. */
  lemma CutWalk(net: Network, p: seq<Uuid>, a: Uuid, to: Uuid, forbidden: set<Uuid>) returns (q: seq<Uuid>)
    requires WalkTo(net, p, a, to, forbidden) && to != a
    ensures q != [] && |q| < |p| && Edge(net, a, q[0]) && WalkTo(net, q, q[0], to, forbidden + {a})
  {
    var j := LastVisit(p, a);
    q := p[j + 1..];
    WalkSuffix(net, p, j + 1);
    assert Edge(net, p[j], p[j + 1]);
    forall i | 0 <= i < |q| ensures q[i] !in forbidden + {a} {
      assert q[i] == p[j + 1 + i];
    }
  }

  lemma ExtendWalk(net: Network, q: seq<Uuid>, a: Uuid, to: Uuid, forbidden: set<Uuid>)
    requires q != [] && a !in forbidden && Edge(net, a, q[0]) && WalkTo(net, q, q[0], to, forbidden + {a})
    ensures WalkTo(net, [a] + q, a, to, forbidden)
  {
    WalkPrepend(net, a, q);
    var p := [a] + q;
    forall i | 0 <= i < |p| ensures p[i] !in forbidden {
      assert i > 0 ==> p[i] == q[i - 1];
    }
  }

  /** The search equation: what can be found from `a` is what `a` has itself, or what
      a successor finds with one hop less and `a` forbidden. */
  lemma FoundUnfolds(net: Network, a: Uuid, forbidden: set<Uuid>, budget: nat, name: string)
    requires a in net.nodes && a !in forbidden && budget > 0
    ensures Found(net, a, forbidden, budget, name) <==>
      name in Own(net, a) || exists b :: Edge(net, a, b) && Found(net, b, forbidden + {a}, budget - 1, name)
  {
    if name in Own(net, a) {
      assert WalkTo(net, [a], a, a, forbidden);
    }
    if Found(net, a, forbidden, budget, name) && name !in Own(net, a) {
      var p, to :| WalkTo(net, p, a, to, forbidden) && |p| <= budget && name in Own(net, to);
      var q := CutWalk(net, p, a, to, forbidden);
      assert Found(net, q[0], forbidden + {a}, budget - 1, name);
    }
    if b :| Edge(net, a, b) && Found(net, b, forbidden + {a}, budget - 1, name) {
      var q, to :| WalkTo(net, q, b, to, forbidden + {a}) && |q| <= budget - 1 && name in Own(net, to);
      ExtendWalk(net, q, a, to, forbidden);
    }
  }

  /** Some successor offers `d`. */
  ghost predicate OfferedBehind(net: Network, a: Uuid, forbidden: set<Uuid>, budget: nat, d: Descriptor) {
    exists b :: Edge(net, a, b) && Offered(net, b, forbidden, budget, d)
  }

  /** What the controller or a successor offers can be had from it. */
  lemma OfferedFrom(net: Network, a: Uuid, forbidden: set<Uuid>, budget: nat, d: Descriptor)
    requires a in net.nodes && a !in forbidden && budget > 0
    requires Offers(net, a, d) || OfferedBehind(net, a, forbidden + {a}, budget - 1, d)
    ensures Offered(net, a, forbidden, budget, d)
  {
    if Offers(net, a, d) {
      assert WalkTo(net, [a], a, a, forbidden);
    } else {
      var b :| Edge(net, a, b) && Offered(net, b, forbidden + {a}, budget - 1, d);
      var q, to :| WalkTo(net, q, b, to, forbidden + {a}) && |q| <= budget - 1 && Offers(net, to, d);
      ExtendWalk(net, q, a, to, forbidden);
    }
  }

  /** A controller reports every service it has a handler for, whoever implements it. */
  lemma HandlersAreReported(net: Network, a: Uuid, forbidden: set<Uuid>, budget: nat, k: string, h: Handler)
    requires a in net.nodes && a !in forbidden && budget > 0
    requires k in net.nodes[a].services && h in net.nodes[a].services[k] && SameDescriptors(net.nodes[a].services[k])
    ensures Found(net, a, forbidden, budget, h.descriptor.name)
  {
    assert net.nodes[a].services[k][0].descriptor.name in Own(net, a);
    assert WalkTo(net, [a], a, a, forbidden);
  }

  /** And with one hop it reports no other. */
  lemma OnlyHandlersAreReported(net: Network, a: Uuid, forbidden: set<Uuid>, name: string) returns (k: string, h: Handler)
    requires Found(net, a, forbidden, 1, name)
    ensures a in net.nodes && k in net.nodes[a].services && h in net.nodes[a].services[k] && h.descriptor.name == name
  {
    var p, to :| WalkTo(net, p, a, to, forbidden) && |p| <= 1 && name in Own(net, to);
    assert p == [a] && to == a;
    k :| k in net.nodes[a].services && net.nodes[a].services[k] != [] && net.nodes[a].services[k][0].descriptor.name == name;
    h := net.nodes[a].services[k][0];
  }

  lemma NothingFound(net: Network, a: Uuid, forbidden: set<Uuid>, budget: nat, name: string)
    requires a in forbidden || budget == 0
    ensures !Found(net, a, forbidden, budget, name)
  {
  }

  // ---------------------------------------------------------------- the hop counter

  /** `RemainingHops--` on a signed 32-bit counter. */
  function Decrement(h: Int32): Int32 {
    if h == -0x8000_0000 then 0x7fff_ffff else h - 1
  }

  /** How many controllers a path may visit before the counter reaches zero. */
  function Budget(h: Int32): nat { h % 0x1_0000_0000 }

  lemma DecrementSpendsOne(h: Int32)
    requires h != 0
    ensures Budget(h) > 0 && Budget(Decrement(h)) == Budget(h) - 1
  {
    if h < 0 {
      assert Budget(h) == h + 0x1_0000_0000;
    }
  }

  // ---------------------------------------------------------------- ListServices

  function Names(ds: seq<Descriptor>): set<string> { set d | d in ds :: d.name }

  predicate DistinctNames(ds: seq<Descriptor>) {
    forall i, j :: 0 <= i < j < |ds| ==> ds[i].name != ds[j].name
  }

  lemma NamesAppend(ds: seq<Descriptor>, es: seq<Descriptor>)
    ensures Names(ds + es) == Names(ds) + Names(es)
  {
  }

  /** `d` is the first of the services with its name. */
  ghost predicate FirstOfItsName(services: seq<Descriptor>, d: Descriptor) {
    exists i :: 0 <= i < |services| && services[i] == d && forall j :: 0 <= j < i ==> services[j].name != d.name
  }

  method FirstByName(services: seq<Descriptor>) returns (deduped: map<string, Descriptor>)
    ensures deduped.Keys == Names(services)
    ensures forall k :: k in deduped ==> deduped[k].name == k && FirstOfItsName(services, deduped[k])
  {
    deduped := map[];
    for i := 0 to |services|
      invariant deduped.Keys == Names(services[..i])
      invariant forall k :: k in deduped ==> deduped[k].name == k && FirstOfItsName(services, deduped[k])
    {
      var svc := services[i];
      assert services[..i + 1] == services[..i] + [svc];
      NamesAppend(services[..i], [svc]);
      if svc.name !in deduped {
        forall j | 0 <= j < i ensures services[j].name != svc.name {
          assert services[j] in services[..i];
        }
        assert FirstOfItsName(services, svc);
        deduped := deduped[svc.name := svc];
      }
    }
    assert services[..|services|] == services;
  }

  predicate TakenFrom(values: seq<Descriptor>, deduped: map<string, Descriptor>) {
    forall i :: 0 <= i < |values| ==> values[i].name in deduped && values[i] == deduped[values[i].name]
  }

  lemma NewName(values: seq<Descriptor>, d: Descriptor)
    requires DistinctNames(values) && d.name !in Names(values)
    ensures DistinctNames(values + [d]) && Names(values + [d]) == Names(values) + {d.name}
  {
    NamesAppend(values, [d]);
    assert forall i :: 0 <= i < |values| ==> values[i].name in Names(values);
  }

  /** The first descriptor of every service name is kept; the order is arbitrary. */
  method Dedupe(services: seq<Descriptor>) returns (values: seq<Descriptor>)
    ensures Names(values) == Names(services) && DistinctNames(values)
    ensures forall i :: 0 <= i < |values| ==> FirstOfItsName(services, values[i])
  {
    var deduped := FirstByName(services);
    values := [];
    var rest := deduped.Keys;
    while rest != {}
      invariant rest <= deduped.Keys
      invariant Names(values) == deduped.Keys - rest && DistinctNames(values)
      invariant TakenFrom(values, deduped)
      decreases rest
    {
      var k :| k in rest;
      NewName(values, deduped[k]);
      values := values + [deduped[k]];
      rest := rest - {k};
    }
  }

  /** The descriptors of the controller itself. */
  method OwnServices(net: Network, id: Uuid) returns (services: seq<Descriptor>)
    requires id in net.nodes
    ensures Names(services) == Own(net, id)
    ensures forall d :: d in services ==> Offers(net, id, d)
  {
    services := [];
    var lists := net.nodes[id].services;
    var rest := lists.Keys;
    while rest != {}
      invariant rest <= lists.Keys
      invariant forall k :: k in lists && k !in rest && lists[k] != [] ==> lists[k][0].descriptor.name in Names(services)
      invariant forall n :: n in Names(services) ==> n in Own(net, id)
      invariant forall d :: d in services ==> Offers(net, id, d)
      decreases rest
    {
      var k :| k in rest;
      if lists[k] != [] {
        NamesAppend(services, [lists[k][0].descriptor]);
        services := services + [lists[k][0].descriptor];
        assert Names([lists[k][0].descriptor]) == {lists[k][0].descriptor.name};
      }
      rest := rest - {k};
    }
  }

  ghost function Forbidden(req: DiscoveryRequest): set<Uuid> {
    (set v | v in req.visited) + {req.initiator}
  }

  /** Some handler before position `i` leads to a controller that finds `name`. */
  ghost predicate ForwardFinds(net: Network, id: Uuid, i: nat, forbidden: set<Uuid>, budget: nat, name: string)
    requires id in net.nodes && i <= |Reflectors(net.nodes[id])|
  {
    var hs := Reflectors(net.nodes[id]);
    exists k :: 0 <= k < i && Forwards(net.nodes[id], hs[k]) && Target(net, hs[k]).Some?
      && Found(net, Target(net, hs[k]).value, forbidden, budget, name)
  }

  /** `services` are the controller's own and what the first `i` reflection handlers lead to:
      these names and no others, each with a descriptor that is offered there. */
  ghost predicate Collected(net: Network, id: Uuid, i: nat, next: DiscoveryRequest, own: seq<Descriptor>, services: seq<Descriptor>)
    requires id in net.nodes && i <= |Reflectors(net.nodes[id])|
  {
    var forbidden, budget := Forbidden(next), Budget(next.remainingHops);
    && (forall name :: name in Names(services) <==> name in Names(own) || ForwardFinds(net, id, i, forbidden, budget, name))
    && (forall d :: d in services ==> d in own || OfferedBehind(net, id, forbidden, budget, d))
  }

  lemma CollectNothing(net: Network, id: Uuid, i: nat, next: DiscoveryRequest, own: seq<Descriptor>, services: seq<Descriptor>)
    requires id in net.nodes && i < |Reflectors(net.nodes[id])| && Collected(net, id, i, next, own, services)
    requires var h := Reflectors(net.nodes[id])[i]; !Forwards(net.nodes[id], h) || Target(net, h).None?
    ensures Collected(net, id, i + 1, next, own, services)
  {
  }

  lemma FindsMore(net: Network, id: Uuid, i: nat, forbidden: set<Uuid>, budget: nat, name: string)
    requires id in net.nodes && i < |Reflectors(net.nodes[id])|
    requires var h := Reflectors(net.nodes[id])[i]; Forwards(net.nodes[id], h) && Target(net, h).Some?
    ensures ForwardFinds(net, id, i + 1, forbidden, budget, name) <==>
      ForwardFinds(net, id, i, forbidden, budget, name)
      || Found(net, Target(net, Reflectors(net.nodes[id])[i]).value, forbidden, budget, name)
  {
  }

  lemma CollectMore(net: Network, id: Uuid, i: nat, next: DiscoveryRequest, own: seq<Descriptor>, services: seq<Descriptor>,
                    b: Uuid, remote: seq<Descriptor>)
    requires id in net.nodes && i < |Reflectors(net.nodes[id])| && Collected(net, id, i, next, own, services)
    requires var h := Reflectors(net.nodes[id])[i]; Forwards(net.nodes[id], h) && Target(net, h) == Some(b)
    requires forall name :: name in Names(remote) <==> Found(net, b, Forbidden(next), Budget(next.remainingHops), name)
    requires forall d :: d in remote ==> Offered(net, b, Forbidden(next), Budget(next.remainingHops), d)
    ensures Collected(net, id, i + 1, next, own, services + remote)
  {
    var forbidden, budget, k := Forbidden(next), Budget(next.remainingHops), i + 1;
    NamesAppend(services, remote);
    forall name ensures name in Names(services + remote) <==> name in Names(own) || ForwardFinds(net, id, k, forbidden, budget, name) {
      FindsMore(net, id, i, forbidden, budget, name);
    }
    assert Edge(net, id, b);
  }

  /** The loop over the reflection handlers: what the controllers behind them find is added
      to the controller's own services. */
  method ForwardToPeers(net: Network, id: Uuid, next: DiscoveryRequest, own: seq<Descriptor>) returns (services: seq<Descriptor>)
    requires id in net.nodes
    ensures Collected(net, id, |Reflectors(net.nodes[id])|, next, own, services)
    decreases net.nodes.Keys - Forbidden(next), 1
  {
    services := own;
    var handlers := Reflectors(net.nodes[id]);
    for i := 0 to |handlers|
      invariant Collected(net, id, i, next, own, services)
    {
      var handler := handlers[i];
      if Forwards(net.nodes[id], handler) {
        var target := Target(net, handler);
        if target.Some? {
          var remote := ListServices(net, target.value, next);
          CollectMore(net, id, i, next, own, services, target.value, remote);
          services := services + remote;
        } else {
          CollectNothing(net, id, i, next, own, services);
        }
      } else {
        CollectNothing(net, id, i, next, own, services);
      }
    }
  }

  /** The names ListServices returns are exactly those registered at controllers that
      a walk within the hop budget reaches while avoiding the initiator and everything
      already visited, and each comes with the descriptor of an oldest handler at such a
      controller.  It terminates on every graph, cycles included. */
  method ListServices(net: Network, id: Uuid, req: DiscoveryRequest) returns (info: seq<Descriptor>)
    requires id in net.nodes
    ensures DistinctNames(info)
    ensures forall name :: name in Names(info) <==> Found(net, id, Forbidden(req), Budget(req.remainingHops), name)
    ensures forall d :: d in info ==> Offered(net, id, Forbidden(req), Budget(req.remainingHops), d)
    decreases net.nodes.Keys - Forbidden(req), 0
  {
    ghost var forbidden, budget := Forbidden(req), Budget(req.remainingHops);
    if req.remainingHops == 0 || req.initiator == id || id in req.visited {
      forall name ensures !Found(net, id, forbidden, budget, name) {
        NothingFound(net, id, forbidden, budget, name);
      }
      return [];
    }
    var next := req.(visited := req.visited + [id], remainingHops := Decrement(req.remainingHops));
    DecrementSpendsOne(req.remainingHops);
    assert Forbidden(next) == forbidden + {id};

    var own := OwnServices(net, id);
    var services := ForwardToPeers(net, id, next, own);
    forall name ensures name in Names(services) <==> Found(net, id, forbidden, budget, name) {
      ForwardingIsEveryEdge(net, id, forbidden + {id}, budget - 1, name);
      FoundUnfolds(net, id, forbidden, budget, name);
    }
    info := Dedupe(services);
    forall d | d in info ensures Offered(net, id, forbidden, budget, d) {
      var i :| 0 <= i < |info| && info[i] == d;
      assert FirstOfItsName(services, d);
      OfferedFrom(net, id, forbidden, budget, d);
    }
  }

  /** The handlers ListServices forwards to are the edges of the graph. */
  lemma ForwardingIsEveryEdge(net: Network, id: Uuid, forbidden: set<Uuid>, budget: nat, name: string)
    requires id in net.nodes
    ensures ForwardFinds(net, id, |Reflectors(net.nodes[id])|, forbidden, budget, name)
      <==> exists b :: Edge(net, id, b) && Found(net, b, forbidden, budget, name)
  {
    var node := net.nodes[id];
    var hs := Reflectors(node);
    if b :| Edge(net, id, b) && Found(net, b, forbidden, budget, name) {
      var h :| h in hs && Forwards(node, h) && Target(net, h) == Some(b);
      var k :| 0 <= k < |hs| && hs[k] == h;
    }
    if ForwardFinds(net, id, |hs|, forbidden, budget, name) {
      var k :| 0 <= k < |hs| && Forwards(node, hs[k]) && Target(net, hs[k]).Some?
        && Found(net, Target(net, hs[k]).value, forbidden, budget, name);
      assert hs[k] in hs;
      assert Edge(net, id, Target(net, hs[k]).value);
    }
  }

  // ---------------------------------------------------------------- no limit

  ghost predicate Sends(net: Network, a: Uuid) { exists b :: Edge(net, a, b) }

  /** The controllers that forward discovery requests to others. */
  ghost function Senders(net: Network): set<Uuid> { set a | a in net.nodes && Sends(net, a) }

  lemma OneFewer(s: set<Uuid>, forbidden: set<Uuid>, a: Uuid)
    requires a in s && a !in forbidden
    ensures |s - forbidden| == |s - (forbidden + {a})| + 1
  {
    assert s - forbidden == (s - (forbidden + {a})) + {a};
  }

  /** A walk can be shortened until it visits no controller twice. */
  lemma {:induction false} ShortWalk(net: Network, p: seq<Uuid>, a: Uuid, to: Uuid, forbidden: set<Uuid>) returns (q: seq<Uuid>)
    requires WalkTo(net, p, a, to, forbidden)
    ensures WalkTo(net, q, a, to, forbidden)
    ensures |q| <= |net.nodes.Keys - forbidden| && |q| <= |Senders(net) - forbidden| + 1
    decreases |p|
  {
    OneFewer(net.nodes.Keys, forbidden, a);
    if a == to {
      q := [a];
    } else {
      var r := CutWalk(net, p, a, to, forbidden);
      assert Sends(net, a);
      OneFewer(Senders(net), forbidden, a);
      var s := ShortWalk(net, r, r[0], to, forbidden + {a});
      ExtendWalk(net, s, a, to, forbidden);
      q := [a] + s;
    }
  }

  /** A budget is no limit at all if it is as large as the number of controllers, or larger
      than the number of those that forward. */
  lemma LargeBudgetIsUnlimited(net: Network, a: Uuid, forbidden: set<Uuid>, budget: nat, name: string)
    requires |net.nodes| <= budget || |Senders(net)| < budget
    ensures Found(net, a, forbidden, budget, name) <==> FoundAnywhere(net, a, forbidden, name)
  {
    if FoundAnywhere(net, a, forbidden, name) {
      var p, to :| WalkTo(net, p, a, to, forbidden) && name in Own(net, to);
      var q := ShortWalk(net, p, a, to, forbidden);
      Subset(net.nodes.Keys - forbidden, net.nodes.Keys);
      Subset(Senders(net) - forbidden, Senders(net));
      assert |net.nodes.Keys| == |net.nodes|;
    }
  }

  /** So a negative limit is no limit on a network of up to 2^31 controllers, or of fewer
      than 2^31 that forward. */
  lemma NegativeIsUnlimited(net: Network, a: Uuid, forbidden: set<Uuid>, h: Int32, name: string)
    requires h < 0 && (|net.nodes| <= 0x8000_0000 || |Senders(net)| < 0x8000_0000)
    ensures Found(net, a, forbidden, Budget(h), name) <==> FoundAnywhere(net, a, forbidden, name)
  {
    assert Budget(h) == h + 0x1_0000_0000;
    LargeBudgetIsUnlimited(net, a, forbidden, Budget(h), name);
  }

  /** discoverServices: ask the peer, with the asking controller as initiator and as
      the only one visited.  `None` when the peer cannot be reached. */
  method DiscoverServices(net: Network, ctrl: Uuid, maxHops: Int32) returns (info: Option<seq<Descriptor>>)
    ensures info.Some? <==> ctrl in net.peers && net.peers[ctrl] in net.nodes
    ensures info.Some? ==> forall name :: name in Names(info.value) <==>
      Found(net, net.peers[ctrl], {ctrl}, Budget(maxHops), name)
    ensures info.Some? ==> DistinctNames(info.value)
    ensures info.Some? ==> forall d :: d in info.value ==> Offered(net, net.peers[ctrl], {ctrl}, Budget(maxHops), d)
    ensures info.Some? && (|net.nodes| <= Budget(maxHops) || |Senders(net)| < Budget(maxHops)) ==> forall name :: name in Names(info.value) <==>
      FoundAnywhere(net, net.peers[ctrl], {ctrl}, name)
  {
    if ctrl !in net.peers || net.peers[ctrl] !in net.nodes {
      return None;
    }
    var req := DiscoveryRequest(ctrl, [ctrl], maxHops);
    assert Forbidden(req) == {ctrl};
    var found := ListServices(net, net.peers[ctrl], req);
    if |net.nodes| <= Budget(maxHops) || |Senders(net)| < Budget(maxHops) {
      forall name ensures Found(net, net.peers[ctrl], {ctrl}, Budget(maxHops), name) <==> FoundAnywhere(net, net.peers[ctrl], {ctrl}, name) {
        LargeBudgetIsUnlimited(net, net.peers[ctrl], {ctrl}, Budget(maxHops), name);
      }
    }
    info := Some(found);
  }
}
