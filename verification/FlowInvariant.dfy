/** Every step of one direction of the protocol keeps the invariant of module Flow. */
module FlowInvariant {
  import opened Messages
  import opened Flow

  // ---------------------------------------------------------------- wire projections

  lemma {:induction false} InFlightAppend(ps: seq<Packet>, p: Packet, n: nat)
    ensures InFlight(ps + [p], n) == InFlight(ps, n) + (if p.call == n then [p.rpc] else [])
  {
    if ps == [] {
      assert (ps + [p])[1..] == [];
    } else {
      var qs, head := ps + [p], if ps[0].call == n then [ps[0].rpc] else [];
      assert qs[0] == ps[0] && qs[1..] == ps[1..] + [p];
      InFlightAppend(ps[1..], p, n);
      assert InFlight(qs, n) == head + InFlight(qs[1..], n);
      assert InFlight(ps, n) == head + InFlight(ps[1..], n);
    }
  }

  lemma {:induction false} InFlightAbsent(ps: seq<Packet>, n: nat)
    requires !OnWire(ps, n)
    ensures InFlight(ps, n) == []
  {
    if ps != [] {
      assert ps[0].call != n;
      forall i | 0 <= i < |ps[1..]| ensures ps[1..][i].call != n {
        assert ps[1..][i] == ps[i + 1];
      }
      InFlightAbsent(ps[1..], n);
    }
  }

  lemma OnWireAppend(ps: seq<Packet>, p: Packet, n: nat)
    ensures OnWire(ps + [p], n) <==> OnWire(ps, n) || p.call == n
  {
    var qs := ps + [p];
    if OnWire(ps, n) {
      var i :| 0 <= i < |ps| && ps[i].call == n;
      assert qs[i].call == n;
    }
    assert qs[|ps|] == p;
    if OnWire(qs, n) {
      var i :| 0 <= i < |qs| && qs[i].call == n;
      assert i < |ps| ==> ps[i].call == n;
    }
  }

  lemma OnWireTail(ps: seq<Packet>, n: nat)
    requires ps != []
    requires forall i, j :: 0 <= i < j < |ps| ==> ps[i].call != ps[j].call
    ensures OnWire(ps[1..], n) <==> OnWire(ps, n) && ps[0].call != n
  {
    var qs := ps[1..];
    if OnWire(qs, n) {
      var i :| 0 <= i < |qs| && qs[i].call == n;
      assert ps[i + 1].call == n;
    }
    if OnWire(ps, n) && ps[0].call != n {
      var i :| 0 <= i < |ps| && ps[i].call == n;
      assert qs[i - 1].call == n;
    }
  }

  // ---------------------------------------------------------------- tags

  lemma TagIsInvertible(n: nat)
    requires n < TAG_SPACE
    ensures CallOf(TagOf(n)) == n
  {
    if n + 1 < TAG_SPACE {
      assert TagOf(n) == n + 1;
    } else {
      assert TagOf(n) == 0;
    }
  }

  /** The counter hands out pairwise different tags for exactly the first 2^64 calls. */
  lemma TagsDistinct(n: nat)
    ensures (forall i, j :: 0 <= i < j < n ==> TagOf(i) != TagOf(j)) <==> n <= TAG_SPACE
  {
    if n <= TAG_SPACE {
      forall i, j | 0 <= i < j < n ensures TagOf(i) != TagOf(j) {
        TagIsInvertible(i);
        TagIsInvertible(j);
      }
    } else {
      assert TagOf(0) == 1 == TagOf(TAG_SPACE);
    }
  }

  /** Quotient and remainder are unique. */
  lemma Quotient(x: int, q: int, r: int)
    requires x == q * TAG_SPACE + r && 0 <= r < TAG_SPACE
    ensures x / TAG_SPACE == q && x % TAG_SPACE == r
  {
  }

  /** Two calls draw the same tag exactly if a multiple of 2^64 lies between them. */
  lemma TagsCollide(i: nat, j: nat)
    ensures TagOf(i) == TagOf(j) <==> (i - j) % TAG_SPACE == 0
  {
    var p, q := (i + 1) / TAG_SPACE, (j + 1) / TAG_SPACE;
    if TagOf(i) == TagOf(j) {
      Quotient(i - j, p - q, 0);
    }
    if (i - j) % TAG_SPACE == 0 {
      Quotient(i + 1, q + (i - j) / TAG_SPACE, TagOf(j));
    }
  }

  /** Storing a future keeps every pending call in the table exactly if no other call is
      pending under its tag. */
  lemma StoreKeepsPending(c: Client, n: nat)
    requires n < |c.issued|
    requires forall t :: t in c.pending ==> c.pending[t] < |c.issued| && c.issued[c.pending[t]].tag == t
    ensures (forall k :: 0 <= k < |c.issued| && IsPending(c, k) ==> IsPending(Store(c, n), k))
      <==> (c.issued[n].tag in c.pending ==> c.pending[c.issued[n].tag] == n)
  {
    var t, d := c.issued[n].tag, Store(c, n);
    if t in c.pending && c.pending[t] != n {
      assert IsPending(c, c.pending[t]) && !IsPending(d, c.pending[t]);
    }
  }

  // ---------------------------------------------------------------- framing

  predicate Sized(f: Flow) { |f.client.issued| == |f.client.futures| }

  /** Nothing that concerns call `n` differs between `f` and `g`. */
  predicate Unmoved(f: Flow, g: Flow, n: nat)
    requires Sized(f) && n < |f.client.issued|
    requires Sized(g) && n < |g.client.issued|
  {
    var c, d, s, r := f.client, g.client, f.server, g.server;
    && c.issued[n] == d.issued[n] && c.futures[n] == d.futures[n]
    && (n in c.callers <==> n in d.callers)
    && (IsAllocated(c, n) <==> IsAllocated(d, n))
    && (IsPending(c, n) <==> IsPending(d, n))
    && (n in c.drained <==> n in d.drained) && (n in c.lost <==> n in d.lost)
    && (OnWire(f.requests, n) <==> OnWire(g.requests, n))
    && (n in s.workers <==> n in r.workers) && (n in s.workers ==> s.workers[n] == r.workers[n])
    && Emitted(s, n) == Emitted(r, n) && (n in s.lost <==> n in r.lost)
    && InFlight(f.replies, n) == InFlight(g.replies, n)
  }

  lemma FrameCall(f: Flow, g: Flow, n: nat)
    requires Sized(f) && n < |f.client.issued|
    requires Sized(g) && n < |g.client.issued|
    requires CallInv(f, n) && Unmoved(f, g, n)
    ensures CallInv(g, n)
  {
    assert FromPeer(f.client, n) == FromPeer(g.client, n);
    assert Places(f, n) == Places(g, n);
  }

  predicate CallsInv(f: Flow)
    requires Sized(f)
  {
    forall n :: 0 <= n < |f.client.issued| ==> CallInv(f, n)
  }

  /** A step that moves only call `k`, and leaves it sound, leaves all calls sound. */
  lemma FrameOthers(f: Flow, g: Flow, k: nat)
    requires Sized(f) && Sized(g) && CallsInv(f)
    requires |f.client.issued| <= |g.client.issued| <= if k == |f.client.issued| then k + 1 else |f.client.issued|
    requires forall n :: 0 <= n < |f.client.issued| && n != k ==> Unmoved(f, g, n)
    requires k < |g.client.issued| ==> CallInv(g, k)
    ensures CallsInv(g)
  {
    forall n | 0 <= n < |f.client.issued| && n != k ensures CallInv(g, n) {
      FrameCall(f, g, n);
    }
  }

  // ---------------------------------------------------------------- client steps

  lemma AllocateKeepsInv(f: Flow, g: Flow, m: RPC)
    requires Inv(f) && m.content.Request? && |f.client.issued| < TAG_SPACE
    requires g == f.(client := Allocate(f.client, m))
    ensures Inv(g)
  {
    var k := |f.client.issued|;
    TagIsInvertible(k);
    NewCallInv(f, g, m);
    FrameOthers(f, g, k);
  }

  lemma NewCallInv(f: Flow, g: Flow, m: RPC)
    requires ShapeInv(f) && WireInv(f) && m.content.Request?
    requires g == f.(client := Allocate(f.client, m))
    ensures CallInv(g, |f.client.issued|)
  {
    var k := |f.client.issued|;
    assert !OnWire(f.requests, k);
    assert !OnWire(f.replies, k);
    InFlightAbsent(f.replies, k);
  }

  lemma StoreKeepsInv(f: Flow, g: Flow, k: nat)
    requires Inv(f) && k < |f.client.issued| && IsAllocated(f.client, k)
    requires g == f.(client := Store(f.client, k))
    ensures Inv(g)
  {
    assert CallInv(f, k);
    StoredCallInv(f, g, k);
    FrameOthers(f, g, k);
  }

  lemma StoredCallInv(f: Flow, g: Flow, k: nat)
    requires Sized(f) && k < |f.client.issued| && IsAllocated(f.client, k) && CallInv(f, k)
    requires g == f.(client := Store(f.client, k))
    ensures CallInv(g, k)
  {
    assert FromPeer(f.client, k) == FromPeer(g.client, k);
    EmptyParts(FromPeer(f.client, k), InFlight(f.replies, k), Emitted(f.server, k));
  }

  lemma EmptyParts(d: seq<RPC>, rest: seq<RPC>, em: seq<RPC>)
    requires d + rest == em
    ensures em == [] ==> d == [] && rest == []
  {
    assert |d| + |rest| == |em|;
  }

  lemma SendKeepsInv(f: Flow, g: Flow, k: nat)
    requires Inv(f) && k < |f.client.issued| && k in f.client.callers && !IsAllocated(f.client, k)
    requires g == f.(client := LeaveRequest(f.client, k, true), requests := f.requests + [Packet(k, f.client.issued[k])])
    ensures Inv(g)
  {
    assert CallInv(f, k);
    forall n: nat ensures OnWire(g.requests, n) <==> OnWire(f.requests, n) || n == k {
      OnWireAppend(f.requests, Packet(k, f.client.issued[k]), n);
    }
    SentCallInv(f, g, k);
    FrameOthers(f, g, k);
    RequestWireGrows(f, g, k);
  }

  lemma SentCallInv(f: Flow, g: Flow, k: nat)
    requires Sized(f) && k < |f.client.issued| && k in f.client.callers && !IsAllocated(f.client, k) && CallInv(f, k)
    requires g == f.(client := LeaveRequest(f.client, k, true), requests := f.requests + [Packet(k, f.client.issued[k])])
    ensures CallInv(g, k)
  {
    OnWireAppend(f.requests, Packet(k, f.client.issued[k]), k);
    assert FromPeer(f.client, k) == FromPeer(g.client, k);
  }

  lemma RequestWireGrows(f: Flow, g: Flow, k: nat)
    requires WireInv(f) && k < |f.client.issued| && !OnWire(f.requests, k)
    requires g.client.issued == f.client.issued && g.replies == f.replies
    requires g.requests == f.requests + [Packet(k, f.client.issued[k])]
    ensures WireInv(g)
  {
    forall i | 0 <= i < |f.requests| ensures g.requests[i] == f.requests[i] && f.requests[i].call != k {}
  }

  lemma SendFailureKeepsInv(f: Flow, g: Flow, k: nat)
    requires Inv(f) && k < |f.client.issued| && k in f.client.callers && !IsAllocated(f.client, k)
    requires g == f.(client := LeaveRequest(f.client, k, false))
    ensures Inv(g)
  {
    assert CallInv(f, k);
    UnsentCallInv(f, g, k);
    FrameOthers(f, g, k);
  }

  lemma UnsentCallInv(f: Flow, g: Flow, k: nat)
    requires Sized(f) && k < |f.client.issued| && k in f.client.callers && !IsAllocated(f.client, k) && CallInv(f, k)
    requires g == f.(client := LeaveRequest(f.client, k, false))
    ensures CallInv(g, k)
  {
    assert FromPeer(f.client, k) == FromPeer(g.client, k);
  }

  lemma TakeKeepsInv(f: Flow, g: Flow, k: nat)
    requires Inv(f) && k < |f.client.futures| && f.client.futures[k].taken < |f.client.futures[k].delivered|
    requires g == f.(client := Take(f.client, k))
    ensures Inv(g)
  {
    assert CallInv(f, k);
    TakenCallInv(f, g, k);
    FrameOthers(f, g, k);
  }

  lemma TakenCallInv(f: Flow, g: Flow, k: nat)
    requires Sized(f) && k < |f.client.futures| && f.client.futures[k].taken < |f.client.futures[k].delivered| && CallInv(f, k)
    requires g == f.(client := Take(f.client, k))
    ensures Sized(g) && CallInv(g, k)
  {
    assert FromPeer(g.client, k) == FromPeer(f.client, k);
  }

  lemma StartDrainKeepsInv(f: Flow, g: Flow, err: Option<Failure>)
    requires Inv(f) && f.client.phase.Running?
    requires g == f.(client := StartDrain(f.client, err))
    ensures Inv(g)
  {
    forall n | n in f.client.pending.Values ensures n < |f.client.issued| && IsPending(g.client, n) {
      var t :| t in f.client.pending && f.client.pending[t] == n;
    }
    FrameOthers(f, g, |f.client.issued|);
  }

  lemma EndDrainKeepsInv(f: Flow, g: Flow)
    requires Inv(f) && f.client.phase.Draining? && f.client.phase.before !! f.client.pending.Values
    requires g == f.(client := EndDrain(f.client))
    ensures Inv(g)
  {
    assert forall n :: 0 <= n < |f.client.issued| && IsPending(f.client, n) ==> n in f.client.pending.Values;
    FrameOthers(f, g, |f.client.issued|);
  }

  lemma DrainOneKeepsInv(f: Flow, g: Flow, t: Tag)
    requires Inv(f) && f.client.phase.Draining? && t in f.client.pending && Unblocked(f.client, t)
    requires g == f.(client := DrainOne(f.client, t))
    ensures Inv(g)
  {
    var k := f.client.pending[t];
    assert CallInv(f, k) && IsPending(f.client, k);
    DrainedCallInv(f, g, t);
    FrameOthers(f, g, k);
  }

  lemma DrainedCallInv(f: Flow, g: Flow, t: Tag)
    requires f.client.phase.Draining? && t in f.client.pending && Unblocked(f.client, t)
    requires Sized(f) && f.client.issued[f.client.pending[t]].tag == t && CallInv(f, f.client.pending[t])
    requires g == f.(client := DrainOne(f.client, t))
    ensures CallInv(g, f.client.pending[t])
    ensures Sized(g) && DrainedLast(g.client, f.client.pending[t])
  {
    var c, k := f.client, f.client.pending[t];
    assert IsPending(c, k);
    var d := c.futures[k].delivered;
    assert g.client.futures[k].delivered == d + [DrainReply(t, c.phase.err)];
    assert FromPeer(g.client, k) == d == FromPeer(c, k);
  }

  // ---------------------------------------------------------------- server steps

  lemma AcceptKeepsInv(f: Flow, g: Flow)
    requires Inv(f) && f.requests != []
    requires g == f.(server := Accept(f.server, f.requests[0]), requests := f.requests[1..])
    ensures Inv(g)
  {
    var k := f.requests[0].call;
    forall n: nat ensures OnWire(g.requests, n) <==> OnWire(f.requests, n) && n != k {
      OnWireTail(f.requests, n);
    }
    assert CallInv(g, k) by {
      assert OnWire(f.requests, k);
      assert CallInv(f, k);
      assert FromPeer(g.client, k) == FromPeer(f.client, k);
    }
    FrameOthers(f, g, k);
  }

  /** A reply sent under call `k` shows up in `k`'s history only, and in both
      places where a history is kept. */
  lemma ReplyMovesOneCall(f: Flow, g: Flow, k: nat, m: RPC)
    requires g.server.emitted == f.server.emitted[k := Emitted(f.server, k) + [m]]
    requires g.replies == f.replies + [Packet(k, m)]
    ensures forall n: nat :: Emitted(g.server, n) == Emitted(f.server, n) + if n == k then [m] else []
    ensures forall n: nat :: InFlight(g.replies, n) == InFlight(f.replies, n) + if n == k then [m] else []
  {
    forall n: nat ensures InFlight(g.replies, n) == InFlight(f.replies, n) + if n == k then [m] else [] {
      InFlightAppend(f.replies, Packet(k, m), n);
    }
  }

  lemma ReplyWireGrows(f: Flow, g: Flow, k: nat, m: RPC)
    requires WireInv(f) && k < |f.client.issued| && m.tag == f.client.issued[k].tag
    requires m.content.Reply? || m.content.StreamMsg?
    requires g.client == f.client && g.requests == f.requests && g.replies == f.replies + [Packet(k, m)]
    ensures WireInv(g)
  {
  }

  lemma StreamKeepsInv(f: Flow, g: Flow, k: nat, m: RPC)
    requires Inv(f) && k in f.server.workers && m.tag == f.server.workers[k] && m.content.StreamMsg?
    requires g == f.(server := SendReply(f.server, k, m, true), replies := f.replies + [Packet(k, m)])
    ensures Inv(g)
  {
    assert CallInv(f, k);
    ReplyWireGrows(f, g, k, m);
    ReplyMovesOneCall(f, g, k, m);
    StreamedCallInv(f, g, k, m);
    FrameOthers(f, g, k);
  }

  lemma StreamedCallInv(f: Flow, g: Flow, k: nat, m: RPC)
    requires Sized(f) && k < |f.client.issued| && CallInv(f, k)
    requires k in f.server.workers && m.content.StreamMsg?
    requires g == f.(server := SendReply(f.server, k, m, true), replies := f.replies + [Packet(k, m)])
    ensures CallInv(g, k)
  {
    ReplyMovesOneCall(f, g, k, m);
    assert FromPeer(g.client, k) == FromPeer(f.client, k);
    assert Emitted(g.server, k) == Emitted(f.server, k) + [m];
    assert !Terminated(Emitted(f.server, k));
  }

  lemma ReplyKeepsInv(f: Flow, g: Flow, k: nat, m: RPC)
    requires Inv(f) && k in f.server.workers && m.tag == f.server.workers[k] && m.content.Reply?
    requires g == f.(server := EndWorker(SendReply(f.server, k, m, true), k, true), replies := f.replies + [Packet(k, m)])
    ensures Inv(g)
  {
    assert CallInv(f, k);
    ReplyWireGrows(f, g, k, m);
    RepliedCallInv(f, g, k, m);
    assert forall n :: 0 <= n < |f.client.issued| && n != k ==> Unmoved(f, g, n) by {
      ReplyMovesOneCall(f, g, k, m);
    }
    FrameOthers(f, g, k);
  }

  lemma RepliedCallInv(f: Flow, g: Flow, k: nat, m: RPC)
    requires Sized(f) && k < |f.client.issued| && CallInv(f, k)
    requires k in f.server.workers && m.content.Reply?
    requires g == f.(server := EndWorker(SendReply(f.server, k, m, true), k, true), replies := f.replies + [Packet(k, m)])
    ensures CallInv(g, k)
  {
    ReplyMovesOneCall(f, g, k, m);
    assert FromPeer(g.client, k) == FromPeer(f.client, k);
    assert Emitted(g.server, k) == Emitted(f.server, k) + [m];
    assert !Terminated(Emitted(f.server, k));
  }

  lemma AbandonKeepsInv(f: Flow, g: Flow, k: nat)
    requires Inv(f) && k in f.server.workers
    requires g == f.(server := EndWorker(f.server, k, false))
    ensures Inv(g)
  {
    assert CallInv(f, k);
    AbandonedCallInv(f, g, k);
    FrameOthers(f, g, k);
  }

  lemma AbandonedCallInv(f: Flow, g: Flow, k: nat)
    requires Sized(f) && k < |f.client.issued| && CallInv(f, k) && k in f.server.workers
    requires g == f.(server := EndWorker(f.server, k, false))
    ensures CallInv(g, k)
  {
    assert FromPeer(g.client, k) == FromPeer(f.client, k);
  }

  // ---------------------------------------------------------------- receiving a reply

  /** While Run is in its loop, the next reply on the wire finds, under its tag,
      the open future of the very call that caused it. */
  lemma HeadFindsItsFuture(f: Flow)
    requires Inv(f) && f.client.phase.Running? && f.replies != []
    ensures var p := f.replies[0];
      && p.rpc.tag in f.client.pending
      && f.client.pending[p.rpc.tag] == p.call < |f.client.futures|
      && !f.client.futures[p.call].closed
  {
    var p := f.replies[0];
    var n := p.call;
    assert CallInv(f, n);
    var d, fl, em := f.client.futures[n].delivered, InFlight(f.replies, n), Emitted(f.server, n);
    assert fl == [p.rpc] + InFlight(f.replies[1..], n);
    assert d + fl == em;
    assert em[|d|] == p.rpc;
    assert forall i :: 0 <= i < |d| ==> d[i] == em[i];
    assert !Terminated(d);
    assert n !in f.client.callers;
  }

  lemma ReceiveKeepsInv(f: Flow, g: Flow)
    requires Inv(f) && f.replies != [] && CanReceive(f.client, f.replies[0].rpc)
    requires g == f.(client := OnReply(f.client, f.replies[0].rpc), replies := f.replies[1..])
    ensures Inv(g)
  {
    var k := f.replies[0].call;
    HeadFindsItsFuture(f);
    ReceivedCallInv(f, g);
    FrameOthers(f, g, k);
  }

  lemma ReceivedCallInv(f: Flow, g: Flow)
    requires Inv(f) && f.replies != [] && CanReceive(f.client, f.replies[0].rpc)
    requires g == f.(client := OnReply(f.client, f.replies[0].rpc), replies := f.replies[1..])
    ensures Sized(g) && f.replies[0].call < |g.client.futures| == |f.client.issued|
    ensures CallInv(g, f.replies[0].call)
  {
    var c, d, p, k := f.client, g.client, f.replies[0], f.replies[0].call;
    HeadFindsItsFuture(f);
    assert CallInv(f, k);
    var was, rest := c.futures[k].delivered, InFlight(f.replies[1..], k);
    assert InFlight(f.replies, k) == [p.rpc] + rest;
    assert d.futures[k].delivered == was + [p.rpc];
    assert was + ([p.rpc] + rest) == (was + [p.rpc]) + rest;
    assert Emitted(f.server, k)[|was|] == p.rpc;
  }

  // ---------------------------------------------------------------- all together

  lemma InitInv()
    ensures Inv(Init())
  {
  }

  /** Every step keeps the invariant, as long as no more than 2^64 calls are made. */
  lemma StepKeepsInv(f: Flow, step: Step)
    requires Inv(f) && Enabled(f, step)
    requires |Apply(f, step).client.issued| <= TAG_SPACE
    ensures Inv(Apply(f, step))
  {
    var g := Apply(f, step);
    assert f.requests + [] == f.requests && f.replies + [] == f.replies;
    match step
    case DoAllocate(m) => AllocateKeepsInv(f, g, m);
    case DoStore(n) => StoreKeepsInv(f, g, n);
    case DoSend(n, true) => SendKeepsInv(f, g, n);
    case DoSend(n, false) => SendFailureKeepsInv(f, g, n);
    case DoAccept => AcceptKeepsInv(f, g);
    case DoStream(n, msg, md, true) => StreamKeepsInv(f, g, n, ReplyRPC(f.server, n, StreamMsg(msg), md));
    case DoStream(_, _, _, false) => assert g == f;
    case DoReply(n, r, md, true) => ReplyKeepsInv(f, g, n, ReplyRPC(f.server, n, Reply(r), md));
    case DoReply(n, _, _, false) => AbandonKeepsInv(f, g, n);
    case DoAbandon(n) => AbandonKeepsInv(f, g, n);
    case DoReceive => ReceiveKeepsInv(f, g);
    case DoTake(n) => TakeKeepsInv(f, g, n);
    case DoStartDrain(err) => StartDrainKeepsInv(f, g, err);
    case DoDrainOne(t) => DrainOneKeepsInv(f, g, t);
    case DoEndDrain => EndDrainKeepsInv(f, g);
  }
}
