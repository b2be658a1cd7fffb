/** The client half of StreamController as an object whose methods update it in place.
    Each method is one of the steps of module Flow, or a loop of them; the steps in which
    goroutines interleave are those of Flow. */
module Controller {
  import opened Messages
  import opened Flow
  import opened Duplex
  import DuplexTheorems

  class StreamController {
    var count: Tag
    var pending: map<Tag, nat>
    var futures: seq<Future>
    var phase: Phase
    var callers: map<nat, Stage>
    ghost var issued: seq<RPC>
    ghost var drained: set<nat>
    ghost var lost: set<nat>

    ghost function State(): Client
      reads this
    {
      Client(issued, callers, pending, futures, phase, drained, lost)
    }

    /** The counter is the number of calls, modulo its width, and the table holds
        futures under the tags of their calls. */
    ghost predicate Valid()
      reads this
    {
      count == |issued| % TAG_SPACE && Tagged(State())
    }

    constructor ()
      ensures Valid() && State() == InitClient()
    {
      count, pending, futures, phase, callers := 0, map[], [], Running, map[];
      issued, drained, lost := [], {}, {};
    }

    /** Request up to `count.Inc()`: the message gets its tag. */
    method AllocateTag(m: RPC) returns (n: nat, tagged: RPC)
      requires Valid()
      modifies this
      ensures Valid() && State() == Allocate(old(State()), m)
      ensures n == |old(issued)| && tagged == issued[n]
    {
      n := |futures|;
      count := (count + 1) % TAG_SPACE;
      tagged := m.(tag := count);
      assert count == TagOf(n);
      futures := futures + [Future([], 0, false)];
      callers := callers[n := Allocated];
      issued := issued + [tagged];
    }

    /** `pendingRPCs.Store`; an entry under the same tag would be replaced. */
    method StoreFuture(n: nat, tagged: RPC)
      requires Valid() && n < |issued| && tagged == issued[n]
      modifies this
      ensures Valid() && State() == Store(old(State()), n)
    {
      callers := callers[n := Stored];
      pending := pending[tagged.tag := n];
    }

    /** Request on a message object, when no other goroutine comes in between: its
        metadata and tag are overwritten in place, and it is sent. */
    method Request(msg: Message, md: Metadata) returns (n: nat)
      requires Valid()
      modifies this, msg
      ensures Valid() && n == |old(issued)| < |issued| && msg.Value() == issued[n]
      ensures msg.metadata == FromMD(md) && msg.tag == TagOf(n)
      ensures State() == Requested(old(State()), old(msg.Value()).(metadata := FromMD(md)))
    {
      msg.metadata := FromMD(md);
      var tagged;
      n, tagged := AllocateTag(msg.Value());
      msg.tag := tagged.tag;
      StoreFuture(n, tagged);
      callers := callers - {n};
    }

    /** The consumer of a future reads the next message. */
    method TakeFrom(n: nat) returns (m: RPC)
      requires Valid() && n < |futures| && futures[n].taken < |futures[n].delivered|
      modifies this
      ensures Valid() && State() == Take(old(State()), n) && m == old(futures[n].delivered[futures[n].taken])
    {
      m := futures[n].delivered[futures[n].taken];
      futures := futures[n := futures[n].(taken := futures[n].taken + 1)];
    }

    /** Run: the two reply cases of the switch.  `done` is false while the send into the
        future blocks because the future is full; the step then happens later. */
    method ProcessReply(m: RPC) returns (done: bool)
      requires Valid() && (m.content.Reply? || m.content.StreamMsg?)
      modifies this
      ensures Valid() && (done <==> Unblocked(old(State()), m.tag))
      ensures State() == if done then OnReply(old(State()), m) else old(State())
    {
      if m.tag !in pending {
        phase := Panicked(UnexpectedTag);
        return true;
      }
      var n := pending[m.tag];
      if futures[n].closed {
        phase := Panicked(SendOnClosed);
        return true;
      }
      if !futures[n].HasRoom() {
        return false;
      }
      if m.content.Reply? {
        pending := pending - {m.tag};
        futures := futures[n := futures[n].Put(m).(closed := true)];
      } else {
        futures := futures[n := futures[n].Put(m)];
      }
      done := true;
    }

    /** One visit of the drain's Range callback. */
    method DrainEntry(t: Tag)
      requires Tagged(State()) && phase.Draining? && t in pending && !futures[pending[t]].closed
      modifies this
      ensures State() == DrainOne(old(State()), t) && count == old(count)
    {
      var n := pending[t];
      futures := futures[n := futures[n].Put(DrainReply(t, phase.err)).(closed := true)];
      pending := pending - {t};
      drained := drained + {n};
    }

    /** One turn of the drain's loop, with what it keeps. */
    method DrainNext(t: Tag, err: Option<Failure>, ghost start: Client)
      requires Tagged(start) && Drained(start, State(), err) && t in pending && phase.Draining? && phase.err == err
      requires !start.futures[pending[t]].closed
      modifies this
      ensures Drained(start, State(), err) && pending == old(pending) - {t}
      ensures phase == old(phase) && count == old(count)
    {
      DrainedStep(start, State(), err, t);
      DrainEntry(t);
    }

    /** The drain.  When it is over the table is empty, and each future that was in it has
        received one more message, a response that reads as a failure, and is closed; all
        other futures are as they were.  It blocks if and only if a future in the table is
        full; those drained by then have been answered. */
    method Drain(err: Option<Failure>) returns (done: bool)
      requires Valid() && phase.Running?
      requires AllOpen(State())
      modifies this
      ensures Valid() && Drained(old(State()), State(), err)
      ensures done <==> HadRoom(old(State()), map[])
      ensures if done then pending == map[] && phase == Stopped(err, old(pending).Values)
              else pending != map[] && phase == Draining(err, old(pending).Values)
    {
      ghost var start := State();
      phase := Draining(err, pending.Values);
      while pending != map[]
        invariant Drained(start, State(), err) && count == old(count)
        invariant HadRoom(start, pending)
        invariant phase == Draining(err, start.pending.Values)
        decreases |pending|
      {
        var t :| t in pending;
        EntryIsUntouched(start, State(), err, t);
        if !futures[pending[t]].HasRoom() {
          return false;
        }
        FewerKeys(pending, t);
        OneMoreHadRoom(start, pending, t);
        DrainNext(t, err, start);
      }
      phase := Stopped(err, phase.before);
      done := true;
    }
  }

  /** The client after one Request that was sent. */
  function Requested(c: Client, m: RPC): Client {
    LeaveRequest(Store(Allocate(c, m), |c.issued|), |c.issued|, true)
  }

  /** The table holds futures under the tags of their calls. */
  ghost predicate Tagged(c: Client) {
    && |c.futures| == |c.issued|
    && forall t :: t in c.pending ==> c.pending[t] < |c.futures| && c.issued[c.pending[t]].tag == t
  }

  /** The futures of the entries that are not left had room. */
  ghost predicate HadRoom(start: Client, left: map<Tag, nat>)
    requires Tagged(start)
  {
    forall t :: t in start.pending && t !in left ==> start.futures[start.pending[t]].HasRoom()
  }

  lemma OneMoreHadRoom(start: Client, left: map<Tag, nat>, t: Tag)
    requires Tagged(start) && HadRoom(start, left) && t in start.pending && start.futures[start.pending[t]].HasRoom()
    ensures HadRoom(start, left - {t})
  {
  }

  ghost predicate AllOpen(c: Client)
    requires Tagged(c)
  {
    forall t :: t in c.pending ==> !c.futures[c.pending[t]].closed
  }

  /** An entry that is left is as it was; where it is full, not all had room. */
  lemma EntryIsUntouched(start: Client, c: Client, err: Option<Failure>, t: Tag)
    requires Tagged(start) && Drained(start, c, err) && AllOpen(start) && t in c.pending
    ensures t in start.pending && c.pending[t] == start.pending[t] && c.futures[c.pending[t]] == start.futures[c.pending[t]]
    ensures !start.futures[c.pending[t]].closed
    ensures !c.futures[c.pending[t]].HasRoom() ==> !HadRoom(start, map[])
  {
  }

  /** `c` is `start` with some entries drained: an entry that is left is untouched, one
      that is gone has been answered and closed, and nothing else has changed. */
  ghost predicate Drained(start: Client, c: Client, err: Option<Failure>)
    requires Tagged(start)
  {
    && c.issued == start.issued && c.callers == start.callers && c.lost == start.lost && |c.futures| == |start.futures|
    && (forall t :: t in c.pending ==>
          (t in start.pending && c.pending[t] == start.pending[t] && c.futures[c.pending[t]] == start.futures[c.pending[t]]))
    && (forall t :: t in start.pending && t !in c.pending ==>
          c.futures[start.pending[t]] == start.futures[start.pending[t]].Put(DrainReply(t, err)).(closed := true))
    && (forall n :: 0 <= n < |start.futures| && n !in start.pending.Values ==> c.futures[n] == start.futures[n])
  }

  lemma DrainedStep(start: Client, c: Client, err: Option<Failure>, t: Tag)
    requires Tagged(start) && Drained(start, c, err) && t in c.pending
    requires c.phase.Draining? && c.phase.err == err && !start.futures[c.pending[t]].closed
    ensures Tagged(c) && !c.futures[c.pending[t]].closed
    ensures Drained(start, DrainOne(c, t), err)
  {
    var n, d := c.pending[t], DrainOne(c, t);
    forall u | u in start.pending && u != t ensures start.pending[u] != n {
      assert start.issued[start.pending[u]].tag == u;
    }
  }

  lemma FewerKeys(m: map<Tag, nat>, t: Tag)
    requires t in m
    ensures |m - {t}| < |m|
  {
    assert (m - {t}).Keys == m.Keys - {t};
    assert |(m - {t}).Keys| == |m - {t}| && |m.Keys| == |m|;
  }

  // ---------------------------------------------------------------- in a run of two endpoints

  /** An object that is in the state of one endpoint of a run. */
  ghost predicate Embodies(ctrl: StreamController, p: Pair, side: Side)
    reads ctrl
  {
    ctrl.State() == p.At(side).client && ctrl.count == |ctrl.issued| % TAG_SPACE
  }

  lemma ReachedIsTagged(p: Pair, side: Side)
    requires Reached(p)
    ensures Tagged(p.At(side).client)
    ensures forall t :: t in p.At(side).client.pending ==> !p.At(side).client.futures[p.At(side).client.pending[t]].closed
  {
    var c := p.At(side).client;
    ReachedInv(p, side);
    forall t | t in c.pending ensures !c.futures[c.pending[t]].closed {
      assert CallInv(View(p, side), c.pending[t]);
      assert IsPending(c, c.pending[t]);
    }
  }

  /** In every state of every run, processing the next reply from the wire does not panic:
      it waits for the consumer of a full future, or takes the object to the state that
      follows in the run. */
  method ProcessNext(ctrl: StreamController, m: RPC, ghost p: Pair, ghost side: Side) returns (done: bool)
    requires Reached(p) && Embodies(ctrl, p, side) && ctrl.phase.Running?
    requires p.At(Other(side)).out != [] && p.At(Other(side)).out[0].rpc == m && !m.content.Request?
    modifies ctrl
    ensures !done ==> Embodies(ctrl, p, side)
    ensures done ==>
      && CanHappen(p, Receive(side)) && Reached(Happen(p, Receive(side)))
      && Embodies(ctrl, Happen(p, Receive(side)), side) && ctrl.phase.Running?
  {
    ReachedIsTagged(p, side);
    NextReply(p, side);
    done := ctrl.ProcessReply(m);
    if done {
      NextOccurs(p, Receive(side));
    }
  }

  /** The next reply finds the open future of its call. */
  lemma NextReply(p: Pair, side: Side)
    requires Reached(p) && p.At(side).client.phase.Running?
    requires p.At(Other(side)).out != [] && !p.At(Other(side)).out[0].rpc.content.Request?
    ensures var c, m := p.At(side).client, p.At(Other(side)).out[0].rpc;
      && (m.content.Reply? || m.content.StreamMsg?)
      && (Unblocked(c, m.tag) ==> CanReceive(c, m) && OnReply(c, m).phase.Running? && OnReply(c, m).issued == c.issued)
  {
    DuplexTheorems.ReplyReachesItsCaller(p, side);
    ReachedIsTagged(p, side);
    forall s: Side ensures Inv(View(p, s)) { ReachedInv(p, s); }
    HeadHasContent(p, side);
  }

  /** In every state of every run, the drain answers and closes all pending futures if
      their consumers have read what was streamed. */
  method DrainNow(ctrl: StreamController, err: Option<Failure>, ghost p: Pair, ghost side: Side) returns (done: bool)
    requires Reached(p) && Embodies(ctrl, p, side) && ctrl.phase.Running?
    modifies ctrl
    ensures Tagged(p.At(side).client) && Drained(p.At(side).client, ctrl.State(), err)
    ensures done <==> forall t :: t in p.At(side).client.pending ==> Unblocked(p.At(side).client, t)
    ensures done ==> ctrl.pending == map[]
  {
    ReachedIsTagged(p, side);
    done := ctrl.Drain(err);
  }
}
