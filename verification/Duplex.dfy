/** Two endpoints, each both client and server, joined by two FIFO wires.

    A wire carries the requests of one endpoint and the replies of the same
    endpoint to the other one, interleaved, and the two endpoints draw tags from
    independent counters, so equal tags with different meanings are in flight at
    once.  Seen from either side, every step of the pair is one step of module
    Flow or none: the two directions do not disturb each other. */
module Duplex {
  import opened Messages
  import opened Flow
  import FlowInvariant

  datatype Side = Left | Right

  function Other(side: Side): Side { if side.Left? then Right else Left }

  datatype Endpoint = Endpoint(client: Client, server: Server, out: seq<Packet>)

  datatype Pair = Pair(left: Endpoint, right: Endpoint) {
    function At(side: Side): Endpoint { if side.Left? then left else right }
    function With(side: Side, e: Endpoint): Pair { if side.Left? then this.(left := e) else this.(right := e) }
  }

  datatype Event =
    | AtClient(side: Side, step: Step)   // Request, the consumer of a future, the drain
    | AtServer(side: Side, step: Step)   // a handleRequest worker
    | Receive(side: Side)                // one iteration of Run

  predicate CanHappen(p: Pair, ev: Event) {
    var e := p.At(ev.side);
    match ev
    case AtClient(_, step) => ClientEnabled(e.client, step)
    case AtServer(_, step) => ServerEnabled(e.server, step)
    case Receive(side) =>
      var wire := p.At(Other(side)).out;
      && wire != []
      && e.client.phase.Running?
      && (wire[0].rpc.content.Reply? || wire[0].rpc.content.StreamMsg? ==> CanReceive(e.client, wire[0].rpc))
  }

  /** Run's switch on the content of the message it received. */
  function Dispatch(e: Endpoint, p: Packet): Endpoint
    requires p.rpc.content.Reply? || p.rpc.content.StreamMsg? ==> CanReceive(e.client, p.rpc)
  {
    match p.rpc.content
    case Request(_) => e.(server := Accept(e.server, p))
    case NoContent => e.(client := e.client.(phase := Aborted))
    case _ => e.(client := OnReply(e.client, p.rpc))
  }

  function Happen(p: Pair, ev: Event): Pair
    requires CanHappen(p, ev)
  {
    var e := p.At(ev.side);
    match ev
    case AtClient(side, step) =>
      p.With(side, e.(client := ClientStep(e.client, step), out := e.out + ClientSends(e.client, step)))
    case AtServer(side, step) =>
      p.With(side, e.(server := ServerStep(e.server, step), out := e.out + ServerSends(e.server, step)))
    case Receive(side) =>
      var peer := p.At(Other(side));
      p.With(side, Dispatch(e, peer.out[0])).With(Other(side), peer.(out := peer.out[1..]))
  }

  function Start(): Pair {
    var e := Endpoint(InitClient(), InitServer(), []);
    Pair(e, e)
  }

  // ---------------------------------------------------------------- one direction of the pair

  predicate IsRequest(p: Packet) { p.rpc.content.Request? }

  /** The requests on a wire, or everything else on it, in wire order. */
  function Keep(ps: seq<Packet>, requests: bool): seq<Packet> {
    if ps == [] then []
    else (if IsRequest(ps[0]) == requests then [ps[0]] else []) + Keep(ps[1..], requests)
  }

  /** The calls made by `side`, together with what the peer does about them. */
  function View(p: Pair, side: Side): Flow {
    var e, peer := p.At(side), p.At(Other(side));
    Flow(e.client, peer.server, Keep(e.out, true), Keep(peer.out, false))
  }

  lemma Associate(a: seq<Packet>, b: seq<Packet>, c: seq<Packet>)
    ensures a + (b + c) == (a + b) + c
  {
  }

  lemma {:induction false} KeepAppend(ps: seq<Packet>, qs: seq<Packet>, requests: bool)
    ensures Keep(ps + qs, requests) == Keep(ps, requests) + Keep(qs, requests)
  {
    if ps == [] {
      assert ps + qs == qs;
    } else {
      var all, head := ps + qs, if IsRequest(ps[0]) == requests then [ps[0]] else [];
      assert all[0] == ps[0] && all[1..] == ps[1..] + qs;
      KeepAppend(ps[1..], qs, requests);
      assert Keep(all, requests) == head + Keep(all[1..], requests);
      assert Keep(ps, requests) == head + Keep(ps[1..], requests);
      Associate(head, Keep(ps[1..], requests), Keep(qs, requests));
    }
  }

  /** What an event of the pair amounts to for the calls made by `side`. */
  function StepFor(p: Pair, ev: Event, side: Side): Option<Step>
    requires CanHappen(p, ev)
  {
    match ev
    case AtClient(at, step) => if at == side then Some(step) else None
    case AtServer(at, step) => if at == side then None else Some(step)
    case Receive(at) =>
      var m := p.At(Other(at)).out[0];
      if IsRequest(m) then (if at == side then None else Some(DoAccept))
      else (if at == side then Some(DoReceive) else None)
  }

  /** For the calls of `side`, the event is that step, or changes nothing. */
  predicate Refines(p: Pair, ev: Event, side: Side)
    requires CanHappen(p, ev)
  {
    var f, g := View(p, side), View(Happen(p, ev), side);
    match StepFor(p, ev, side)
    case None => g == f
    case Some(step) => Enabled(f, step) && g == Apply(f, step)
  }

  lemma ClientEventRefines(p: Pair, ev: Event, side: Side)
    requires CanHappen(p, ev) && ev.AtClient? && (forall n :: 0 <= n < |p.At(ev.side).client.issued| ==> p.At(ev.side).client.issued[n].content.Request?)
    ensures Refines(p, ev, side)
  {
    var e := p.At(ev.side);
    var sent := ClientSends(e.client, ev.step);
    KeepAppend(e.out, sent, true);
    KeepAppend(e.out, sent, false);
    assert Keep(sent, true) == sent && Keep(sent, false) == [];
  }

  lemma ServerEventRefines(p: Pair, ev: Event, side: Side)
    requires CanHappen(p, ev) && ev.AtServer?
    ensures Refines(p, ev, side)
  {
    ServerSendsReplies(p.At(ev.side).out, ServerSends(p.At(ev.side).server, ev.step));
    if side == ev.side {
      OwnServerEvent(p, ev);
    } else {
      PeersServerEvent(p, ev);
    }
  }

  lemma ServerSendsReplies(out: seq<Packet>, sent: seq<Packet>)
    requires |sent| <= 1 && forall i :: 0 <= i < |sent| ==> !IsRequest(sent[i])
    ensures Keep(out + sent, true) == Keep(out, true) && Keep(out + sent, false) == Keep(out, false) + sent
  {
    if sent != [] {
      assert sent[1..] == [] && sent == [sent[0]];
    }
    KeepAppend(out, sent, true);
    KeepAppend(out, sent, false);
  }

  lemma OwnServerEvent(p: Pair, ev: Event)
    requires CanHappen(p, ev) && ev.AtServer?
    requires Keep(Happen(p, ev).At(ev.side).out, true) == Keep(p.At(ev.side).out, true)
    ensures Refines(p, ev, ev.side)
  {
    assert View(Happen(p, ev), ev.side) == View(p, ev.side);
  }

  lemma PeersServerEvent(p: Pair, ev: Event)
    requires CanHappen(p, ev) && ev.AtServer?
    requires Keep(Happen(p, ev).At(ev.side).out, false) == Keep(p.At(ev.side).out, false) + ServerSends(p.At(ev.side).server, ev.step)
    ensures Refines(p, ev, Other(ev.side))
  {
    assert View(Happen(p, ev), Other(ev.side)).replies == View(p, Other(ev.side)).replies + ServerSends(p.At(ev.side).server, ev.step);
  }

  /** Taking the first message off a wire takes it from one projection only. */
  lemma KeepTail(ps: seq<Packet>, requests: bool)
    requires ps != []
    ensures IsRequest(ps[0]) == requests ==> Keep(ps, requests) != [] && Keep(ps, requests)[0] == ps[0] && Keep(ps, requests)[1..] == Keep(ps[1..], requests)
    ensures IsRequest(ps[0]) != requests ==> Keep(ps, requests) == Keep(ps[1..], requests)
  {
  }

  lemma ReceiveEventRefines(p: Pair, ev: Event, side: Side)
    requires CanHappen(p, ev) && ev.Receive? && !p.At(Other(ev.side)).out[0].rpc.content.NoContent?
    ensures Refines(p, ev, side)
  {
    var e, peer := p.At(ev.side), p.At(Other(ev.side));
    KeepTail(peer.out, true);
    KeepTail(peer.out, false);
    var q := Happen(p, ev);
    assert q.At(ev.side) == Dispatch(e, peer.out[0]);
    assert q.At(Other(ev.side)) == peer.(out := peer.out[1..]);
    if IsRequest(peer.out[0]) {
      assert q.At(ev.side) == e.(server := Accept(e.server, peer.out[0]));
    } else {
      assert q.At(ev.side) == e.(client := OnReply(e.client, peer.out[0].rpc));
    }
  }

  // ---------------------------------------------------------------- every run

  ghost predicate PairInv(p: Pair) {
    forall side: Side :: Inv(View(p, side))
  }

  /** A run: it starts in the initial pair and each state follows by some event. */
  ghost predicate IsRun(run: seq<Pair>) {
    && run != [] && run[0] == Start()
    && forall i, j :: 0 <= i < j < |run| && j == i + 1 ==> Follows(run[i], run[j])
  }

  ghost predicate Follows(p: Pair, q: Pair) {
    exists ev :: CanHappen(p, ev) && q == Happen(p, ev)
  }

  /** Neither endpoint has drawn more tags than the counter can tell apart. */
  predicate TagsSuffice(p: Pair) {
    |p.left.client.issued| <= TAG_SPACE && |p.right.client.issued| <= TAG_SPACE
  }

  /** The next message on a wire is never one without content. */
  lemma HeadHasContent(p: Pair, side: Side)
    requires PairInv(p) && p.At(Other(side)).out != []
    ensures !p.At(Other(side)).out[0].rpc.content.NoContent?
  {
    var wire := p.At(Other(side)).out;
    var f := View(p, side);
    assert Inv(f);
    if !IsRequest(wire[0]) {
      assert f.replies == [wire[0]] + Keep(wire[1..], false);
      assert f.replies[0] == wire[0];
    }
  }

  lemma EventRefines(p: Pair, ev: Event, side: Side)
    requires PairInv(p) && CanHappen(p, ev)
    ensures Refines(p, ev, side)
  {
    match ev
    case AtClient(at, _) =>
      assert Inv(View(p, at));
      forall n | 0 <= n < |p.At(at).client.issued| ensures p.At(at).client.issued[n].content.Request? {
        assert CallInv(View(p, at), n);
      }
      ClientEventRefines(p, ev, side);
    case AtServer(_, _) => ServerEventRefines(p, ev, side);
    case Receive(at) =>
      HeadHasContent(p, at);
      ReceiveEventRefines(p, ev, side);
  }

  lemma EventKeepsInv(p: Pair, ev: Event)
    requires PairInv(p) && CanHappen(p, ev) && TagsSuffice(Happen(p, ev))
    ensures PairInv(Happen(p, ev))
  {
    forall side: Side ensures Inv(View(Happen(p, ev), side)) {
      EventRefines(p, ev, side);
      assert Inv(View(p, side));
      assert View(Happen(p, ev), side).client == Happen(p, ev).At(side).client;
      if StepFor(p, ev, side).Some? {
        FlowInvariant.StepKeepsInv(View(p, side), StepFor(p, ev, side).value);
      }
    }
  }

  lemma IssuedOnlyGrows(p: Pair, ev: Event)
    requires CanHappen(p, ev) && TagsSuffice(Happen(p, ev))
    ensures TagsSuffice(p)
  {
  }

  lemma StartInv()
    ensures PairInv(Start())
  {
    FlowInvariant.InitInv();
    forall side: Side ensures View(Start(), side) == Init() {}
  }

  lemma FollowsKeepsInv(p: Pair, q: Pair)
    requires Follows(p, q) && TagsSuffice(q)
    ensures TagsSuffice(p)
    ensures PairInv(p) ==> PairInv(q)
  {
    var ev :| CanHappen(p, ev) && q == Happen(p, ev);
    IssuedOnlyGrows(p, ev);
    if PairInv(p) {
      EventKeepsInv(p, ev);
    }
  }

  lemma RunStep(run: seq<Pair>, i: nat)
    requires IsRun(run) && i + 1 < |run| && TagsSuffice(run[i + 1])
    ensures TagsSuffice(run[i])
    ensures PairInv(run[i]) ==> PairInv(run[i + 1])
  {
    FollowsKeepsInv(run[i], run[i + 1]);
  }

  lemma {:induction false} RunKeepsInv(run: seq<Pair>, i: nat)
    requires IsRun(run) && i < |run| && TagsSuffice(run[i])
    ensures PairInv(run[i])
  {
    if i == 0 {
      StartInv();
    } else {
      RunStep(run, i - 1);
      RunKeepsInv(run, i - 1);
    }
  }

  /** A state of some run. */
  ghost predicate Occurs(p: Pair) {
    exists run, i :: IsRun(run) && 0 <= i < |run| && run[i] == p
  }

  lemma StartOccurs()
    ensures Occurs(Start())
  {
    var run := [Start()];
    assert IsRun(run) && run[0] == Start();
  }

  lemma NextOccurs(p: Pair, ev: Event)
    requires Occurs(p) && CanHappen(p, ev)
    ensures Occurs(Happen(p, ev))
  {
    var run, i :| IsRun(run) && 0 <= i < |run| && run[i] == p;
    var longer := run[..i + 1] + [Happen(p, ev)];
    assert Follows(p, Happen(p, ev));
    forall a, b | 0 <= a < b < |longer| && b == a + 1 ensures Follows(longer[a], longer[b]) {
      assert longer[a] == run[a];
      if b <= i {
        assert Follows(run[a], run[b]);
      }
    }
    assert IsRun(longer) && longer[i + 1] == Happen(p, ev);
  }

  /** A state of some run in which neither endpoint has yet drawn more than 2^64 tags. */
  ghost predicate Reached(p: Pair) {
    TagsSuffice(p) && Occurs(p)
  }

  /** Every state of every run satisfies the invariant, in both directions. */
  lemma ReachedInv(p: Pair, side: Side)
    requires Reached(p)
    ensures Inv(View(p, side))
  {
    var run, i :| IsRun(run) && 0 <= i < |run| && run[i] == p;
    RunKeepsInv(run, i);
  }
}
