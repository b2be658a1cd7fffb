/** Every hop limit limits: for each value of the counter there is a chain of controllers,
    each spliced to the next, along which discovery stops one too early.

    The service at the end of the chain was registered after the splices.  A Server takes no
    registration once it serves, but a StreamController does (RegisterServiceHandler). */
module Chains {
  import opened Messages
  import opened Registry
  import opened Sets
  import opened Discovery
  import opened Topology

  function MainId(i: nat): Uuid { "m" + seq(i, _ => 'x') }
  function SpliceId(i: nat): Uuid { "s" + seq(i, _ => 'x') }

  /** Where the chain's names and the outsider that asks are told apart. */
  const ASKER: Uuid := "a"

  function Place(u: Uuid): int { |u| - 1 }

  const REFLECTION_SERVICE :=
    Descriptor(REFLECTION, [MethodDesc(LIST_SERVICES, false, false, ".totem.ServiceInfo", None)], false)

  function Implementation(i: nat, name: string): Handler {
    DefaultHandler(i, 2 * i, Descriptor(name, [], false), LocalInvoker(i, TopologyFlags(true, false, false)))
  }

  function Fresh(i: nat): Server { NewServer(MainId(i), i, 2 * i, REFLECTION_SERVICE) }

  /** What happens at place `i`: the last one gets an implementation of the service, and the
      others splice the next one, which at that time had only the reflection service. */
  function Setup(i: nat, last: nat, name: string): Op {
    if i == last then RegisterLocal(Implementation(i, name))
    else Splice(SpliceId(i), i, 2 * i + 1, REFLECTION_SERVICE, [], Some([REFLECTION_SERVICE]))
  }

  lemma SetupIsEnabled(i: nat, last: nat, name: string)
    ensures Sound(Fresh(i)) && Enabled(Fresh(i), Setup(i, last, name)) && Inv(Fresh(i))
    ensures SpliceId(i) != MainId(i)
  {
    NewServerInv(MainId(i), i, 2 * i, REFLECTION_SERVICE);
    NewControllerIsOwnFirst(MainId(i), i, 2 * i, REFLECTION_SERVICE, NO_FLAGS);
    assert SpliceId(i)[0] != MainId(i)[0];
  }

  function Ids(last: nat): set<Uuid> {
    (set i | 0 <= i <= last :: MainId(i)) + (set i | 0 <= i < last :: SpliceId(i))
  }

  /** All controllers of the servers, and the streams that join a spliced one to the next
      main one; somebody else is connected to the first. */
  function Joined(servers: seq<Server>): Network
    requires servers != []
  {
    var last := |servers| - 1;
    Network(map u | u in Ids(last) && 0 <= Place(u) <= last && u in servers[Place(u)].nodes :: servers[Place(u)].nodes[u],
            map[ASKER := MainId(0)] + map u | u in (set i | 0 <= i < last :: SpliceId(i)) && 0 <= Place(u) :: MainId(Place(u) + 1))
  }

  function Servers(last: nat, name: string): seq<Server> {
    seq(last + 1, i requires 0 <= i <= last =>
      SetupIsEnabled(i, last, name);
      Apply(Fresh(i), Setup(i, last, name)))
  }

  function Chain(last: nat, name: string): Network { Joined(Servers(last, name)) }

  // ---------------------------------------------------------------- what the servers have

  /** There is the reflection service and no other. */
  predicate OnlyReflects(node: Node) {
    forall k :: k in node.services ==> k == REFLECTION && forall h :: h in node.services[k] ==> h.descriptor == REFLECTION_SERVICE
  }

  lemma ReflectorIsOne(node: Node, h: Handler)
    requires OnlyReflects(node) && h.descriptor == REFLECTION_SERVICE
    ensures Accepts(ListFor(node, h), h) && OnlyReflects(Register(node, h))
  {
  }

  lemma NewControllerReflects(uuid: Uuid, i: nat, ctx: Context, base: TopologyFlags)
    ensures OnlyReflects(NewController(uuid, i, ctx, REFLECTION_SERVICE, base))
  {
    var empty, own := Node(ctx, map[]), OwnReflector(i, ctx, REFLECTION_SERVICE, base);
    ReflectorIsOne(empty, own);
    ReflectorIsOne(Register(empty, own), DefaultHandler(i, ctx, REFLECTION_SERVICE, ControllerInvoker(uuid, base)));
  }

  /** The main controller of a server has a reflection handler that leads on. */
  ghost predicate LeadsOn(node: Node, ctrl: Uuid) {
    exists h :: h in Reflectors(node) && Forwards(node, h) && h.invokers[LIST_SERVICES] == ControllerInvoker(ctrl, SPLICED)
  }

  /** What there is to know about the server at place `i`. */
  ghost predicate IsLink(s: Server, i: nat, last: nat, name: string) {
    && Inv(s) && s.main == MainId(i)
    && s.spliced == (if i == last then [] else [SpliceId(i)])
    && s.nodes.Keys == (if i == last then {MainId(i)} else {MainId(i), SpliceId(i)})
    && (i < last ==> OnlyReflects(s.nodes[s.main]) && LeadsOn(s.nodes[s.main], SpliceId(i)))
    && (i == last ==> name in s.nodes[s.main].services && s.nodes[s.main].services[name] == [Implementation(i, name)])
  }

  lemma RegisterOne(node: Node, h: Handler)
    ensures RegisterAll(node, [h]) == Register(node, h)
    ensures AllRegistered(node, [h]) <==> Accepts(ListFor(node, h), h)
  {
    assert RegisterUpTo(node, [h], 0) == node && NoPanic(node, [h], 0);
  }

  /** The splice adds one handler to the main controller, and returns. */
  lemma SetupReturns(i: nat, last: nat, name: string)
    requires i < last
    ensures var op := Setup(i, last, name);
      Forwarders(op) == [Reflector(op, REFLECTION_SERVICE)] && Returns(Fresh(i), op)
  {
    var op, main := Setup(i, last, name), Fresh(i).nodes[MainId(i)];
    var h := Reflector(op, REFLECTION_SERVICE);
    assert AllAllowed(REFLECTION_SERVICE);
    assert Forwarders(op) == [h];
    NewControllerReflects(MainId(i), i, 2 * i, NO_FLAGS);
    ReflectorIsOne(main, h);
    RegisterOne(main, h);
  }

  lemma SetupReports(i: nat, last: nat, name: string)
    requires i < last && Sound(Fresh(i)) && Enabled(Fresh(i), Setup(i, last, name))
    ensures Reported(Setup(i, last, name), Apply(Fresh(i), Setup(i, last, name)), REFLECTION_SERVICE)
  {
    SetupReturns(i, last, name);
    assert REFLECTION_SERVICE.methods[0].name in NamesOf(REFLECTION_SERVICE);
  }

  lemma SplicingLeadsOn(i: nat, last: nat, name: string)
    requires i < last && Sound(Fresh(i)) && Enabled(Fresh(i), Setup(i, last, name))
    ensures var s := Apply(Fresh(i), Setup(i, last, name)); s.main in s.nodes && LeadsOn(s.nodes[s.main], SpliceId(i))
  {
    var op := Setup(i, last, name);
    SetupReports(i, last, name);
    SpliceRegistersReflector(Fresh(i), op, REFLECTION_SERVICE);
    var node, h := Apply(Fresh(i), op).nodes[MainId(i)], Reflector(op, REFLECTION_SERVICE);
    assert LIST_SERVICES in NamesOf(REFLECTION_SERVICE);
    assert h in Reflectors(node) && Forwards(node, h);
  }

  /** Neither the main controller nor that of the splice gets another service. */
  lemma SplicingReflects(i: nat, last: nat, name: string)
    requires i < last && Sound(Fresh(i)) && Enabled(Fresh(i), Setup(i, last, name))
    ensures var s := Apply(Fresh(i), Setup(i, last, name)); forall c :: c in s.nodes ==> OnlyReflects(s.nodes[c])
  {
    var op, main := Setup(i, last, name), Fresh(i).nodes[MainId(i)];
    NewControllerReflects(MainId(i), i, 2 * i, NO_FLAGS);
    NewControllerReflects(op.ctrl, i, op.ctx, SPLICED);
    SetupReturns(i, last, name);
    RegisterOne(main, Reflector(op, REFLECTION_SERVICE));
    ReflectorIsOne(main, Reflector(op, REFLECTION_SERVICE));
  }

  lemma LastImplements(last: nat, name: string)
    requires name != REFLECTION && Sound(Fresh(last)) && Enabled(Fresh(last), Setup(last, last, name))
    ensures var s := Apply(Fresh(last), Setup(last, last, name));
      && s.main in s.nodes && name in s.nodes[s.main].services
      && s.nodes[s.main].services[name] == [Implementation(last, name)]
  {
    var before, h := Fresh(last).nodes[MainId(last)], Implementation(last, name);
    NewControllerReflects(MainId(last), last, 2 * last, NO_FLAGS);
    assert name !in before.services;
    assert Register(before, h).services[name] == [] + [h];
  }

  lemma SetupShape(i: nat, last: nat, name: string)
    requires i <= last && Sound(Fresh(i)) && Enabled(Fresh(i), Setup(i, last, name))
    ensures var s := Apply(Fresh(i), Setup(i, last, name));
      && s.main == MainId(i) && s.spliced == (if i == last then [] else [SpliceId(i)])
      && s.nodes.Keys == (if i == last then {MainId(i)} else {MainId(i), SpliceId(i)})
  {
    assert Fresh(i).nodes.Keys == {MainId(i)} && Fresh(i).spliced == [];
    if i < last {
      SetupReturns(i, last, name);
    }
    assert [] + [SpliceId(i)] == [SpliceId(i)];
  }

  lemma SetupMakesLink(i: nat, last: nat, name: string)
    requires i <= last && name != REFLECTION
    ensures LinkAt(Servers(last, name), i, name)
  {
    SetupIsEnabled(i, last, name);
    SetupShape(i, last, name);
    OpKeepsInv(Fresh(i), Setup(i, last, name));
    if i < last {
      SplicingReflects(i, last, name);
      SplicingLeadsOn(i, last, name);
    } else {
      LastImplements(last, name);
    }
  }

  /** Each of them is what a server's life can lead to. */
  ghost predicate IsSetUp(servers: seq<Server>, i: nat, name: string)
    requires i < |servers|
  {
    IsLife([Fresh(i), servers[i]], [Setup(i, |servers| - 1, name)])
  }

  lemma ServersLive(i: nat, last: nat, name: string)
    requires i <= last
    ensures IsSetUp(Servers(last, name), i, name)
  {
    SetupIsEnabled(i, last, name);
    assert IsNew(Fresh(i));
    OneStepLife([Fresh(i), Servers(last, name)[i]], [Setup(i, last, name)]);
  }

  lemma OneStepLife(life: seq<Server>, ops: seq<Op>)
    requires |life| == 2 && |ops| == 1 && IsNew(life[0]) && Next(life, ops, 0)
    ensures IsLife(life, ops)
  {
  }

  // ---------------------------------------------------------------- the network

  ghost predicate LinkAt(servers: seq<Server>, i: nat, name: string)
    requires i < |servers|
  {
    IsLink(servers[i], i, |servers| - 1, name)
  }

  ghost predicate Links(servers: seq<Server>, name: string) {
    forall i :: 0 <= i < |servers| ==> LinkAt(servers, i, name)
  }

  predicate MainAt(net: Network, s: Server, i: nat) {
    MainId(i) in net.nodes && MainId(i) in s.nodes && net.nodes[MainId(i)] == s.nodes[MainId(i)]
  }

  predicate Joins(net: Network, i: nat) {
    SpliceId(i) in net.peers && net.peers[SpliceId(i)] == MainId(i + 1)
  }

  lemma MainIsThere(servers: seq<Server>, name: string, i: nat)
    requires Links(servers, name) && i < |servers|
    ensures LinkAt(servers, i, name) && MainAt(Joined(servers), servers[i], i)
  {
    assert Place(MainId(i)) == i && MainId(i) in Ids(|servers| - 1);
    assert LinkAt(servers, i, name);
    assert MainId(i) in servers[i].nodes.Keys;
  }

  lemma SpliceIsJoined(servers: seq<Server>, i: nat)
    requires i < |servers| - 1
    ensures Joins(Joined(servers), i)
  {
    var n := |servers| - 1;
    assert Place(SpliceId(i)) == i && SpliceId(i) in (set j | 0 <= j < n :: SpliceId(j));
  }

  lemma AskerAsksFirst(servers: seq<Server>)
    requires servers != []
    ensures ASKER in Joined(servers).peers && Joined(servers).peers[ASKER] == MainId(0)
  {
    forall i | 0 <= i < |servers| - 1 ensures SpliceId(i) != ASKER {
      assert SpliceId(i)[0] != ASKER[0];
    }
  }

  lemma OwnsOnlyReflection(net: Network, a: Uuid)
    requires a in net.nodes && OnlyReflects(net.nodes[a])
    ensures Own(net, a) <= {REFLECTION}
  {
    var services: map<string, seq<Handler>> := net.nodes[a].services;
    forall k | k in services && services[k] != [] ensures services[k][0].descriptor.name == REFLECTION {
      assert services[k][0] in services[k];
    }
  }

  /** Only the last server has the service. */
  lemma OnlyLastOwns(net: Network, s: Server, i: nat, last: nat, name: string)
    requires i <= last && name != REFLECTION && IsLink(s, i, last, name) && MainAt(net, s, i)
    ensures name in Own(net, MainId(i)) <==> i == last
  {
    if i < last {
      OwnsOnlyReflection(net, MainId(i));
    } else {
      assert net.nodes[MainId(i)].services[name][0].descriptor.name == name;
    }
  }

  lemma EdgesLeadOn(net: Network, s: Server, i: nat, last: nat, name: string, b: Uuid)
    requires i <= last && IsLink(s, i, last, name) && MainAt(net, s, i) && (i < last ==> Joins(net, i))
    requires Edge(net, MainId(i), b)
    ensures i < last && b == MainId(i + 1)
  {
    EdgesOfServer(s, net, MainId(i), b);
  }

  lemma NextIsEdge(net: Network, s: Server, i: nat, last: nat, name: string)
    requires i < last && IsLink(s, i, last, name) && MainAt(net, s, i) && MainId(i + 1) in net.nodes && Joins(net, i)
    ensures Edge(net, MainId(i), MainId(i + 1))
  {
    var node := net.nodes[MainId(i)];
    var h :| h in Reflectors(node) && Forwards(node, h) && h.invokers[LIST_SERVICES] == ControllerInvoker(SpliceId(i), SPLICED);
    assert Target(net, h) == Some(MainId(i + 1));
  }

  // ---------------------------------------------------------------- walks

  /** From one server a walk can only go on to the next. */
  predicate Onward(p: seq<Uuid>, k: nat, n: nat)
    requires k + 1 < |p|
  {
    k < n && p[k] == MainId(k) ==> k + 1 < n && p[k + 1] == MainId(k + 1)
  }

  lemma WalkGoesOn(servers: seq<Server>, name: string, p: seq<Uuid>, k: nat)
    requires servers != [] && Links(servers, name) && Walk(Joined(servers), p) && k + 1 < |p|
    ensures Onward(p, k, |servers|)
  {
    if k < |servers| && p[k] == MainId(k) {
      assert Edge(Joined(servers), p[k], p[k + 1]);
      EdgeFrom(servers, name, k, p[k + 1]);
    }
  }

  lemma {:induction false} OnwardSteps(p: seq<Uuid>, n: nat, k: nat)
    requires k < |p| && n > 0 && p[0] == MainId(0) && forall i :: 0 <= i < |p| - 1 ==> Onward(p, i, n)
    ensures k < n && p[k] == MainId(k)
  {
    if k > 0 {
      OnwardSteps(p, n, k - 1);
      assert Onward(p, k - 1, n);
    }
  }

  /** A walk from the first server takes the servers one by one. */
  lemma WalkIsSteps(servers: seq<Server>, name: string, p: seq<Uuid>, k: nat)
    requires servers != [] && Links(servers, name) && Walk(Joined(servers), p) && p[0] == MainId(0) && k < |p|
    ensures k < |servers| && p[k] == MainId(k)
  {
    forall i | 0 <= i < |p| - 1 ensures Onward(p, i, |servers|) {
      WalkGoesOn(servers, name, p, i);
    }
    OnwardSteps(p, |servers|, k);
  }

  lemma EdgeFrom(servers: seq<Server>, name: string, i: nat, b: Uuid)
    requires servers != [] && Links(servers, name) && i < |servers| && Edge(Joined(servers), MainId(i), b)
    ensures i < |servers| - 1 && b == MainId(i + 1)
  {
    MainIsThere(servers, name, i);
    if i < |servers| - 1 {
      SpliceIsJoined(servers, i);
    }
    EdgesLeadOn(Joined(servers), servers[i], i, |servers| - 1, name, b);
  }

  lemma EdgeTo(servers: seq<Server>, name: string, i: nat)
    requires Links(servers, name) && i < |servers| - 1
    ensures Edge(Joined(servers), MainId(i), MainId(i + 1))
  {
    MainIsThere(servers, name, i);
    MainIsThere(servers, name, i + 1);
    SpliceIsJoined(servers, i);
    NextIsEdge(Joined(servers), servers[i], i, |servers| - 1, name);
  }

  function Steps(n: nat): seq<Uuid> { seq(n, i requires 0 <= i < n => MainId(i)) }

  predicate Passable(net: Network, i: nat, n: nat) {
    MainId(i) in net.nodes && (i < n - 1 ==> Edge(net, MainId(i), MainId(i + 1)))
  }

  lemma ServerIsPassable(servers: seq<Server>, name: string, i: nat)
    requires Links(servers, name) && i < |servers|
    ensures Passable(Joined(servers), i, |servers|)
  {
    MainIsThere(servers, name, i);
    if i < |servers| - 1 {
      EdgeTo(servers, name, i);
    }
  }

  lemma StepsAreAWalk(net: Network, n: nat)
    requires n > 0 && forall i :: 0 <= i < n ==> Passable(net, i, n)
    ensures WalkTo(net, Steps(n), MainId(0), MainId(n - 1), {ASKER})
  {
    var p := Steps(n);
    forall i | 0 <= i < n ensures p[i] in net.nodes && p[i] !in {ASKER} {
      assert Passable(net, i, n) && MainId(i)[0] != ASKER[0];
    }
    forall i, j | 0 <= i < j < n && j == i + 1 ensures Edge(net, p[i], p[j]) {
      assert Passable(net, i, n);
    }
  }

  lemma EndIsReached(servers: seq<Server>, name: string)
    requires servers != [] && name != REFLECTION && Links(servers, name)
    ensures FoundAnywhere(Joined(servers), MainId(0), {ASKER}, name)
  {
    var net, n := Joined(servers), |servers|;
    forall i | 0 <= i < n ensures Passable(net, i, n) {
      ServerIsPassable(servers, name, i);
    }
    StepsAreAWalk(net, n);
    EndHasIt(servers, name);
  }

  lemma EndHasIt(servers: seq<Server>, name: string)
    requires servers != [] && name != REFLECTION && Links(servers, name)
    ensures MainId(|servers| - 1) in Joined(servers).nodes && name in Own(Joined(servers), MainId(|servers| - 1))
  {
    var n := |servers| - 1;
    MainIsThere(servers, name, n);
    OnlyLastOwns(Joined(servers), servers[n], n, n, name);
  }

  lemma EndIsFar(servers: seq<Server>, name: string)
    requires servers != [] && name != REFLECTION && Links(servers, name)
    ensures !Found(Joined(servers), MainId(0), {ASKER}, |servers| - 1, name)
  {
    var net := Joined(servers);
    forall p, to | WalkTo(net, p, MainId(0), to, {ASKER}) && name in Own(net, to) ensures |p| >= |servers| {
      var k := |p| - 1;
      WalkIsSteps(servers, name, p, k);
      MainIsThere(servers, name, k);
      OnlyLastOwns(net, servers[k], k, |servers| - 1, name);
    }
  }

  lemma ChainIsLinked(last: nat, name: string)
    requires name != REFLECTION
    ensures |Servers(last, name)| == last + 1 && Links(Servers(last, name), name)
  {
    forall i | 0 <= i < |Servers(last, name)| ensures LinkAt(Servers(last, name), i, name) {
      SetupMakesLink(i, last, name);
    }
  }

  /** A service at the end of a chain can be reached, but not within a budget that ends one
      server earlier. */
  lemma ChainExceeds(budget: nat, name: string)
    requires name != REFLECTION
    ensures FoundAnywhere(Chain(budget, name), MainId(0), {ASKER}, name)
    ensures !Found(Chain(budget, name), MainId(0), {ASKER}, budget, name)
  {
    ChainIsLinked(budget, name);
    EndIsReached(Servers(budget, name), name);
    EndIsFar(Servers(budget, name), name);
  }

  /** So every limit limits, negative ones included: on a chain of Budget(h) + 1 servers, all
      of which got there by a life of their own, discovery from outside misses a service
      that is reachable. */
  method DiscoveryMisses(h: Int32, name: string) returns (info: Option<seq<Descriptor>>)
    requires name != REFLECTION
    ensures info.Some? && name !in Names(info.value)
    ensures FoundAnywhere(Chain(Budget(h), name), MainId(0), {ASKER}, name)
    ensures forall i :: 0 <= i <= Budget(h) ==> IsSetUp(Servers(Budget(h), name), i, name)
  {
    var servers := Servers(Budget(h), name);
    forall i | 0 <= i <= Budget(h) ensures IsSetUp(servers, i, name) {
      ServersLive(i, Budget(h), name);
    }
    ChainIsLinked(Budget(h), name);
    AskerAsksFirst(servers);
    MainIsThere(servers, name, 0);
    ChainExceeds(Budget(h), name);
    info := DiscoverServices(Joined(servers), ASKER, h);
  }

  // ---------------------------------------------------------------- what the splices discover

  /** When place `i` splices: the places behind it have done so, and the service is not
      registered yet. */
  function ServersBefore(i: nat, last: nat, name: string): seq<Server> {
    seq(last + 1, j requires 0 <= j <= last =>
      SetupIsEnabled(j, last, name);
      if i < j < last then Apply(Fresh(j), Setup(j, last, name)) else Fresh(j))
  }

  lemma ReflectsBefore(i: nat, last: nat, name: string, j: nat)
    requires j <= last
    ensures var s := ServersBefore(i, last, name)[j];
      && s.main == MainId(j) && Inv(s) && s.ended == {} && forall c :: c in s.nodes ==> OnlyReflects(s.nodes[c])
  {
    SetupIsEnabled(j, last, name);
    NewControllerReflects(MainId(j), j, 2 * j, NO_FLAGS);
    if i < j < last {
      OpKeepsInv(Fresh(j), Setup(j, last, name));
      SplicingReflects(j, last, name);
    }
  }

  /** Place `i` is joined to the next, and there is the reflection service everywhere and no
      other. */
  ghost predicate IsBare(net: Network, i: nat) {
    && Joins(net, i) && MainId(i + 1) in net.nodes && Reflectors(net.nodes[MainId(i + 1)]) != []
    && forall u :: u in net.nodes ==> OnlyReflects(net.nodes[u])
  }

  lemma NextReflects(i: nat, last: nat, name: string)
    requires i < last
    ensures var net := Joined(ServersBefore(i, last, name)); MainId(i + 1) in net.nodes && Reflectors(net.nodes[MainId(i + 1)]) != []
  {
    var servers, next := ServersBefore(i, last, name), MainId(i + 1);
    ReflectsBefore(i, last, name, i + 1);
    assert Place(next) == i + 1 && next in Ids(last);
    assert NodeInv(servers[i + 1], next) && Joined(servers).nodes[next] == servers[i + 1].nodes[next];
  }

  lemma NetworkIsBare(i: nat, last: nat, name: string)
    requires i < last
    ensures IsBare(Joined(ServersBefore(i, last, name)), i)
  {
    var servers := ServersBefore(i, last, name);
    SpliceIsJoined(servers, i);
    NextReflects(i, last, name);
    forall u | u in Joined(servers).nodes ensures OnlyReflects(Joined(servers).nodes[u]) {
      ReflectsBefore(i, last, name, Place(u));
    }
  }

  lemma BareOffers(net: Network, i: nat, from: Uuid, forbidden: set<Uuid>, budget: nat, d: Descriptor)
    requires IsBare(net, i) && Offered(net, from, forbidden, budget, d)
    ensures d == REFLECTION_SERVICE
  {
    var p, to :| WalkTo(net, p, from, to, forbidden) && |p| <= budget && Offers(net, to, d);
    var services: map<string, seq<Handler>> := net.nodes[to].services;
    var k :| k in services && services[k] != [] && services[k][0].descriptor == d;
    assert services[k][0] in services[k];
  }

  lemma BareFinds(net: Network, i: nat, budget: nat)
    requires IsBare(net, i) && budget > 0
    ensures Found(net, MainId(i + 1), {SpliceId(i)}, budget, REFLECTION)
  {
    var next := MainId(i + 1);
    assert next[0] != SpliceId(i)[0];
    var services: map<string, seq<Handler>> := net.nodes[next].services;
    assert services[REFLECTION][0] in services[REFLECTION];
    FoundUnfolds(net, next, {SpliceId(i)}, budget, REFLECTION);
  }

  lemma OneDescriptor(ds: seq<Descriptor>, d: Descriptor)
    requires DistinctNames(ds) && d.name in Names(ds) && forall e :: e in ds ==> e == d
    ensures ds == [d]
  {
    assert |ds| > 1 ==> ds[0].name != ds[1].name;
    assert forall i :: 0 <= i < |ds| ==> ds[i] in ds;
  }

  method BareDiscovers(net: Network, i: nat, h: Int32) returns (info: Option<seq<Descriptor>>)
    requires IsBare(net, i) && h != 0
    ensures info == Some([REFLECTION_SERVICE])
  {
    info := DiscoverServices(net, SpliceId(i), h);
    BareFinds(net, i, Budget(h));
    forall d | d in info.value ensures d == REFLECTION_SERVICE {
      BareOffers(net, i, MainId(i + 1), {SpliceId(i)}, Budget(h), d);
    }
    OneDescriptor(info.value, REFLECTION_SERVICE);
  }

  /** What a splice of the chain is told is what discovery finds at that time, under any
      limit but zero. */
  method SpliceDiscovers(i: nat, last: nat, name: string, h: Int32) returns (info: Option<seq<Descriptor>>)
    requires i < last && h != 0
    ensures info == Setup(i, last, name).discovered
  {
    NetworkIsBare(i, last, name);
    info := BareDiscovers(Joined(ServersBefore(i, last, name)), i, h);
  }

  // ---------------------------------------------------------------- the exact limit

  lemma {:induction false} FewMains(n: nat)
    ensures |set i | 0 <= i < n :: MainId(i)| <= n
  {
    var ids := set i | 0 <= i < n :: MainId(i);
    if n > 0 {
      var before := set i | 0 <= i < n - 1 :: MainId(i);
      FewMains(n - 1);
      assert ids == before + {MainId(n - 1)};
    } else {
      assert ids == {};
    }
  }

  lemma ChainSenders(servers: seq<Server>, name: string)
    requires servers != [] && Links(servers, name)
    ensures |Senders(Joined(servers))| < |servers|
  {
    var net, n := Joined(servers), |servers| - 1;
    var mains := set i | 0 <= i < n :: MainId(i);
    forall a | a in Senders(net) ensures a in mains {
      var b :| Edge(net, a, b);
      var i: nat := Place(a);
      assert LinkAt(servers, i, name);
      EdgesOfServer(servers[i], net, a, b);
      EdgeFrom(servers, name, i, b);
    }
    FewMains(n);
    Subset(Senders(net), mains);
  }

  /** On every network with at most `n` forwarding controllers, the budget is no limit. */
  ghost predicate NoLimit(n: nat, budget: nat) {
    forall net, a, forbidden, name :: |Senders(net)| <= n ==>
      (Found(net, a, forbidden, budget, name) <==> FoundAnywhere(net, a, forbidden, name))
  }

  lemma SmallIsUnlimited(n: nat, budget: nat)
    requires n < budget
    ensures NoLimit(n, budget)
  {
    forall net, a, forbidden, name | |Senders(net)| <= n
      ensures Found(net, a, forbidden, budget, name) <==> FoundAnywhere(net, a, forbidden, name)
    {
      LargeBudgetIsUnlimited(net, a, forbidden, budget, name);
    }
  }

  lemma ChainIsLimited(budget: nat) returns (net: Network, a: Uuid, forbidden: set<Uuid>, name: string)
    ensures |Senders(net)| <= budget
    ensures !Found(net, a, forbidden, budget, name) && FoundAnywhere(net, a, forbidden, name)
  {
    net, a, forbidden, name := Chain(budget, "X"), MainId(0), {ASKER}, "X";
    ChainIsLinked(budget, name);
    ChainSenders(Servers(budget, name), name);
    ChainExceeds(budget, name);
  }

  /** A limit `h` finds everything reachable on all networks with at most `n` forwarding
      controllers, if and only if `n` is less than `h` modulo 2^32. */
  lemma LimitIsExact(n: nat, h: Int32)
    ensures NoLimit(n, Budget(h)) <==> n < Budget(h)
    ensures Budget(h) == if h < 0 then h + 0x1_0000_0000 else h
  {
    if n < Budget(h) {
      SmallIsUnlimited(n, Budget(h));
    } else {
      var net, a, forbidden, name := ChainIsLimited(Budget(h));
    }
  }
}
