/** What holds in every state of every run of two connected endpoints.  `p` is any
    state of any run in which neither endpoint has drawn more than 2^64 tags so
    far, and `side` is either endpoint. */
module DuplexTheorems {
  import opened Messages
  import opened Flow
  import opened Duplex
  import FlowInvariant

  /** Neither "unexpected tag" panic, no send on a closed future and no double
      close, in the loop and in the drain alike; and the loop never ends by
      "invalid content type", the exit that would skip the drain. */
  lemma NeverPanics(p: Pair, side: Side)
    requires Reached(p)
    ensures !p.At(side).client.phase.Panicked? && !p.At(side).client.phase.Aborted?
  {
    ReachedInv(p, side);
  }

  /** The reply Run is about to process carries a tag of this endpoint's own
      table, whatever tags the peer is using, and the future stored there is the
      open future of the call the peer is answering. */
  lemma ReplyReachesItsCaller(p: Pair, side: Side)
    requires Reached(p) && p.At(side).client.phase.Running?
    requires p.At(Other(side)).out != [] && !IsRequest(p.At(Other(side)).out[0])
    ensures var c, m := p.At(side).client, p.At(Other(side)).out[0];
      && m.call < |c.issued| && m.rpc.tag == c.issued[m.call].tag
      && m.rpc.tag in c.pending && c.pending[m.rpc.tag] == m.call
      && m.call < |c.futures| && !c.futures[m.call].closed
  {
    ReachedInv(p, side);
    var f, wire := View(p, side), p.At(Other(side)).out;
    assert f.replies == [wire[0]] + Keep(wire[1..], false);
    assert f.replies[0] == wire[0];
    FlowInvariant.HeadFindsItsFuture(f);
  }

  /** Nothing is lost, duplicated or reordered within a call: what its future got
      from the peer, followed by what is still on the wire for it, is exactly what
      the peer's worker sent for it. */
  lemma RepliesArriveInOrder(p: Pair, side: Side, n: nat)
    requires Reached(p) && n < |p.At(side).client.issued|
    ensures n < |p.At(side).client.futures|
    ensures FromPeer(p.At(side).client, n) + InFlight(Keep(p.At(Other(side)).out, false), n)
         == Emitted(p.At(Other(side)).server, n)
  {
    ReachedInv(p, side);
    assert CallInv(View(p, side), n);
  }

  /** Stream messages, then one response, then close: every future's history is a
      prefix of that, all under the tag the call was given.  So a consumer that reads a closed channel dry, and would next
      read nil, has already read a terminal response. */
  lemma FutureHistory(p: Pair, side: Side, n: nat)
    requires Reached(p) && n < |p.At(side).client.futures|
    ensures var fu := p.At(side).client.futures[n];
      && Script(fu.delivered) && n < |p.At(side).client.issued| && Under(fu.delivered, p.At(side).client.issued[n].tag)
      && (fu.closed <==> Terminated(fu.delivered))
      && (fu.closed && fu.taken == |fu.delivered| ==> fu.taken > 0 && fu.delivered[fu.taken - 1].content.Reply?)
  {
    ReachedInv(p, side);
    assert CallInv(View(p, side), n);
  }

  /** Every call is in exactly one place: still in Request, its request on the wire,
      in a worker, answered, or lost to a failed send or a worker that gave up. */
  lemma EachCallInOnePlace(p: Pair, side: Side, n: nat)
    requires Reached(p) && n < |p.At(side).client.issued|
    ensures var e, peer := p.At(side), p.At(Other(side));
      One(n in e.client.callers) + One(OnWire(Keep(e.out, true), n)) + One(n in peer.server.workers)
      + One(Terminated(Emitted(peer.server, n))) + One(n in e.client.lost || n in peer.server.lost) == 1
  {
    ReachedInv(p, side);
    assert CallInv(View(p, side), n);
  }

  /** For a pending call "answered" means that its terminal response is on the wire. */
  lemma PendingAnswerIsOnTheWire(p: Pair, side: Side, n: nat)
    requires Reached(p) && n < |p.At(side).client.issued| && IsPending(p.At(side).client, n)
    ensures Terminated(Emitted(p.At(Other(side)).server, n))
      <==> Terminated(InFlight(Keep(p.At(Other(side)).out, false), n))
  {
    ReachedInv(p, side);
    var f := View(p, side);
    assert CallInv(f, n);
    TerminatedBehind(f.client.futures[n].delivered, InFlight(f.replies, n), Emitted(f.server, n));
  }

  /** Where the first part has no end, the second has it. */
  lemma TerminatedBehind(first: seq<RPC>, rest: seq<RPC>, all: seq<RPC>)
    requires first + rest == all && !Terminated(first)
    ensures Terminated(all) <==> Terminated(rest)
  {
    if rest == [] {
      assert first == all;
    } else {
      assert rest[|rest| - 1] == all[|all| - 1];
    }
  }

  /** A worker holds the tag of the request it serves, and a request on the wire is
      the one its caller made: neither the payload nor the metadata has changed. */
  lemma RequestsArriveIntact(p: Pair, side: Side)
    requires Reached(p)
    ensures var c, peer, sent := p.At(side).client, p.At(Other(side)).server, Keep(p.At(side).out, true);
      && (forall n :: n in peer.workers ==> n < |c.issued| && peer.workers[n] == c.issued[n].tag)
      && (forall j :: 0 <= j < |sent| ==> sent[j].call < |c.issued| && sent[j].rpc == c.issued[sent[j].call])
  {
    ReachedInv(p, side);
    var f := View(p, side);
    forall n | n in f.server.workers ensures n < |f.client.issued| && f.server.workers[n] == f.client.issued[n].tag {
      assert CallInv(f, n);
    }
  }

  lemma RequestIsRequest(p: Pair, side: Side, n: nat)
    requires Reached(p) && n < |p.At(side).client.issued|
    ensures p.At(side).client.issued[n].content.Request?
  {
    ReachedInv(p, side);
    assert CallInv(View(p, side), n);
  }

  /** Conservation: each call is not yet stored, or pending, or completed, and only
      one of these; the table maps every tag to the call that drew it. */
  lemma CallsAreConserved(p: Pair, side: Side, n: nat)
    requires Reached(p) && n < |p.At(side).client.issued|
    ensures n < |p.At(side).client.futures|
    ensures var c := p.At(side).client;
      && One(IsAllocated(c, n)) + One(IsPending(c, n)) + One(c.futures[n].closed) == 1
      && forall t :: t in c.pending ==> CallOf(t) == c.pending[t]
  {
    ReachedInv(p, side);
    var f := View(p, side);
    assert CallInv(f, n);
    assert IsAllocated(f.client, n) ==> |f.client.futures[n].delivered + InFlight(f.replies, n)| == 0;
  }

  /** When Run is past its drain, every call that was pending when the loop ended is
      completed, whatever ended the loop. */
  lemma DrainCompletesCalls(p: Pair, side: Side, n: nat)
    requires Reached(p)
    requires p.At(side).client.phase.Stopped? && n in p.At(side).client.phase.before
    ensures n < |p.At(side).client.futures| && p.At(side).client.futures[n].closed
  {
    ReachedInv(p, side);
  }

  /** A call that the drain answered reads the error the stream ended with, and an
      unknown failure when the stream ended cleanly: never a success. */
  lemma DrainedReadsAsFailure(p: Pair, side: Side, n: nat)
    requires Reached(p) && n in p.At(side).client.drained
    ensures n < |p.At(side).client.futures| && p.At(side).client.futures[n].closed
    ensures p.At(side).client.phase.Draining? || p.At(side).client.phase.Stopped?
    ensures var d := p.At(side).client.futures[n].delivered;
      && d != [] && d[|d| - 1].content.Reply?
      && Observe(d[|d| - 1].content.response) == Failed(
           match p.At(side).client.phase.err case Some(f) => f case None => Status(UNKNOWN, "Unknown"))
  {
    ReachedInv(p, side);
    assert DrainedLast(p.At(side).client, n) && p.At(side).client.futures[n].closed by {
      assert CallInv(View(p, side), n);
    }
    DrainedIsObserved(p.At(side).client, n);
  }

  lemma DrainedIsObserved(c: Client, n: nat)
    requires n < |c.futures| == |c.issued| && DrainedLast(c, n)
    ensures var d := c.futures[n].delivered;
      && d[|d| - 1].content.Reply?
      && Observe(d[|d| - 1].content.response) == Failed(
           match c.phase.err case Some(f) => f case None => Status(UNKNOWN, "Unknown"))
  {
  }

  /** A call whose worker has streamed nothing finds its future empty, so neither
      the loop nor the drain ever blocks on it, even if its caller has gone away. */
  lemma UnaryNeverBlocks(p: Pair, side: Side, n: nat)
    requires Reached(p) && n < |p.At(side).client.issued| && IsPending(p.At(side).client, n)
    requires forall m :: m in Emitted(p.At(Other(side)).server, n) ==> !m.content.StreamMsg?
    ensures n < |p.At(side).client.futures| && p.At(side).client.futures[n] == Future([], 0, false)
    ensures Unblocked(p.At(side).client, p.At(side).client.issued[n].tag)
  {
    PendingCall(p, side, n);
    var c, replies, server := p.At(side).client, Keep(p.At(Other(side)).out, false), p.At(Other(side)).server;
    UnaryIsEmpty(c.futures[n], c.issued[n].tag, InFlight(replies, n), Emitted(server, n));
  }

  /** What is known of a pending call. */
  lemma PendingCall(p: Pair, side: Side, n: nat)
    requires Reached(p) && n < |p.At(side).client.issued| && IsPending(p.At(side).client, n)
    ensures var c := p.At(side).client;
      && n < |c.futures| == |c.issued| && FutureInv(c, n) && !c.futures[n].closed
      && c.futures[n].delivered + InFlight(Keep(p.At(Other(side)).out, false), n) == Emitted(p.At(Other(side)).server, n)
  {
    ReachedInv(p, side);
    assert CallInv(View(p, side), n);
  }

  lemma UnaryIsEmpty(fu: Future, tag: Tag, rest: seq<RPC>, em: seq<RPC>)
    requires Script(fu.delivered) && !Terminated(fu.delivered) && !fu.closed && fu.taken <= |fu.delivered|
    requires fu.delivered + rest == em && forall m :: m in em ==> !m.content.StreamMsg?
    ensures fu == Future([], 0, false)
  {
    OpenStartsWithStream(fu.delivered, rest);
  }

  lemma OpenStartsWithStream(d: seq<RPC>, rest: seq<RPC>)
    ensures Script(d) && !Terminated(d) && d != [] ==> d[0].content.StreamMsg? && d[0] in d + rest
  {
    if d != [] {
      assert (d + rest)[0] == d[0];
    }
  }
}
