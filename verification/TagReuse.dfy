/** Why the run theorems stop at 2^64 tags: a run in which one endpoint draws one tag
    more, and which violates them.  Call 0 is waiting for its answer while 2^64 further
    tags are drawn.  The last of them is call 0's own, and storing its future replaces
    call 0 in the table; the answer to call 0 then completes the wrong call, and the
    answer to that call makes Run panic. */
module TagReuse {
  import opened Messages
  import opened Flow
  import opened Duplex
  import FlowInvariant
  import DuplexTheorems

  /** The states of the run: `k` tags have been drawn after the first one. */
  ghost predicate Scene(p: Pair, k: nat, pending: map<Tag, nat>, server: Server, out: seq<Packet>, back: seq<Packet>) {
    var c := p.left.client;
    && |c.issued| == |c.futures| == k + 1
    && (forall j :: 0 <= j <= k ==> c.issued[j].content.Request? && c.issued[j].tag == TagOf(j))
    && c.pending == pending && c.phase.Running?
    && p.left.out == out && p.right.out == back
    && p.right.client == InitClient() && p.right.server == server
  }

  /** The peer while it serves `workers`. */
  function Serving(workers: map<nat, Tag>): Server { Server(workers, map[], {}) }

  predicate Untouched(p: Pair, n: nat) {
    n < |p.left.client.futures| && p.left.client.futures[n] == Future([], 0, false)
  }

  const FIRST: Tag := 1
  const LAST: nat := TAG_SPACE

  /** Call 0 has arrived at the peer. */
  lemma Beginning(m: RPC) returns (p: Pair)
    requires m.content.Request?
    ensures Occurs(p) && Untouched(p, 0)
    ensures Scene(p, 0, map[FIRST := 0], Serving(map[0 := FIRST]), [], [])
  {
    StartOccurs();
    p := Start();
    var events := [AtClient(Left, DoAllocate(m)), AtClient(Left, DoStore(0)), AtClient(Left, DoSend(0, true)), Receive(Right)];
    assert TagOf(0) == FIRST;
    NextOccurs(p, events[0]);
    p := Happen(p, events[0]);
    assert Scene(p, 0, map[], Serving(map[]), [], []);
    NextOccurs(p, events[1]);
    p := Happen(p, events[1]);
    assert Scene(p, 0, map[FIRST := 0], Serving(map[]), [], []);
    NextOccurs(p, events[2]);
    p := Happen(p, events[2]);
    assert Scene(p, 0, map[FIRST := 0], Serving(map[]), [Packet(0, p.left.client.issued[0])], []);
    NextOccurs(p, events[3]);
    p := Happen(p, events[3]);
  }

  lemma DrawTag(p: Pair, m: RPC, k: nat, pending: map<Tag, nat>, server: Server)
    requires Scene(p, k, pending, server, [], []) && m.content.Request?
    ensures var ev := AtClient(Left, DoAllocate(m));
      && CanHappen(p, ev) && Scene(Happen(p, ev), k + 1, pending, server, [], [])
      && (Untouched(p, 0) ==> Untouched(Happen(p, ev), 0)) && Untouched(Happen(p, ev), k + 1)
      && IsAllocated(Happen(p, ev).left.client, k + 1)
  {
    assert p.left.out + [] == p.left.out;
  }

  /** `k` more tags are drawn while call 0 waits. */
  lemma {:induction false} Waiting(m: RPC, k: nat) returns (p: Pair)
    requires m.content.Request? && k > 0
    ensures Occurs(p) && Untouched(p, 0) && Untouched(p, k) && IsAllocated(p.left.client, k)
    ensures Scene(p, k, map[FIRST := 0], Serving(map[0 := FIRST]), [], [])
  {
    var q;
    if k == 1 {
      q := Beginning(m);
    } else {
      q := Waiting(m, k - 1);
    }
    DrawTag(q, m, k - 1, map[FIRST := 0], Serving(map[0 := FIRST]));
    NextOccurs(q, AtClient(Left, DoAllocate(m)));
    p := Happen(q, AtClient(Left, DoAllocate(m)));
  }

  /** Call 0 is dropped from the table while its future stays open. */
  lemma StoreReplaces(p: Pair)
    requires Scene(p, LAST, map[FIRST := 0], Serving(map[0 := FIRST]), [], []) && Untouched(p, 0) && Untouched(p, LAST)
    requires IsAllocated(p.left.client, LAST)
    ensures var ev := AtClient(Left, DoStore(LAST));
      && CanHappen(p, ev) && Scene(Happen(p, ev), LAST, map[FIRST := LAST], Serving(map[0 := FIRST]), [], [])
      && Untouched(Happen(p, ev), 0) && Untouched(Happen(p, ev), LAST)
      && Happen(p, ev).left.client.callers == p.left.client.callers[LAST := Stored]
  {
    FlowInvariant.TagsCollide(0, LAST);
    assert p.left.client.issued[LAST].tag == TagOf(0) == FIRST;
    assert p.left.out + [] == p.left.out;
  }

  /** The new call arrives at the peer, where both are served now. */
  lemma SecondArrives(p: Pair) returns (q: Pair)
    requires Occurs(p) && Scene(p, LAST, map[FIRST := LAST], Serving(map[0 := FIRST]), [], []) && Untouched(p, 0) && Untouched(p, LAST)
    requires LAST in p.left.client.callers && p.left.client.callers[LAST] == Stored
    ensures Occurs(q) && Scene(q, LAST, map[FIRST := LAST], Serving(map[0 := FIRST, LAST := FIRST]), [], [])
    ensures Untouched(q, 0) && Untouched(q, LAST)
  {
    FlowInvariant.TagsCollide(0, LAST);
    var packet := Packet(LAST, p.left.client.issued[LAST]);
    var send := AtClient(Left, DoSend(LAST, true));
    NextOccurs(p, send);
    var r := Happen(p, send);
    assert Scene(r, LAST, map[FIRST := LAST], Serving(map[0 := FIRST]), [packet], []);
    NextOccurs(r, Receive(Right));
    q := Happen(r, Receive(Right));
    assert q.right.server.workers == map[0 := FIRST][LAST := FIRST];
  }

  function ReplyTo(n: nat, r: Response): Packet { Packet(n, RPC(FIRST, "", "", Reply(r), None)) }

  function AfterReply(s: Server, n: nat, r: Response): Server {
    EndWorker(SendReply(s, n, ReplyTo(n, r).rpc, true), n, true)
  }

  lemma Answered(p: Pair, n: nat, r: Response, pending: map<Tag, nat>, server: Server)
    requires Scene(p, LAST, pending, server, [], []) && n in server.workers && server.workers[n] == FIRST
    ensures var ev := AtServer(Right, DoReply(n, r, None, true));
      && CanHappen(p, ev) && Scene(Happen(p, ev), LAST, pending, AfterReply(server, n, r), [], [ReplyTo(n, r)])
      && Happen(p, ev).left.client == p.left.client
  {
  }

  /** The answer to call 0 ends up in the future of the other call. */
  lemma WrongFuture(p: Pair, r: Response, server: Server)
    requires Scene(p, LAST, map[FIRST := LAST], server, [], [ReplyTo(0, r)]) && Untouched(p, 0) && Untouched(p, LAST)
    ensures CanHappen(p, Receive(Left))
    ensures var q := Happen(p, Receive(Left));
      && Scene(q, LAST, map[], server, [], []) && Untouched(q, 0)
      && q.left.client.futures[LAST] == Future([ReplyTo(0, r).rpc], 0, true)
  {
    var q := Happen(p, Receive(Left));
    assert q.left.client == OnReply(p.left.client, ReplyTo(0, r).rpc);
    assert q.left.client.pending == map[];
  }

  /** With 2^64 + 1 tags drawn, a pending call can be dropped from the table (`dropped`),
      an answer can reach the wrong caller (`misled`), and Run can panic (`crashed`): the
      bound in the run theorems is the exact one. */
  lemma OneTagTooMany(m: RPC, r: Response) returns (dropped: Pair, misled: Pair, crashed: Pair)
    requires m.content.Request?
    ensures Occurs(dropped) && |dropped.left.client.issued| == TAG_SPACE + 1
    ensures var c := dropped.left.client; 0 in dropped.right.server.workers && Untouched(dropped, 0) && !IsPending(c, 0)
    ensures Occurs(misled) && |misled.left.client.issued| == TAG_SPACE + 1 == |misled.left.client.futures|
    ensures misled.left.client.futures[LAST].delivered == [ReplyTo(0, r).rpc] == Emitted(misled.right.server, 0)
    ensures Emitted(misled.right.server, LAST) == []
    ensures Occurs(crashed) && |crashed.left.client.issued| == TAG_SPACE + 1 && |crashed.right.client.issued| == 0
    ensures crashed.left.client.phase == Panicked(UnexpectedTag)
  {
    var p := Waiting(m, LAST);
    StoreReplaces(p);
    NextOccurs(p, AtClient(Left, DoStore(LAST)));
    dropped := Happen(p, AtClient(Left, DoStore(LAST)));
    misled := Misleading(dropped, r);
    crashed := Crashing(misled, r, misled.right.server);
  }

  lemma Misleading(p: Pair, r: Response) returns (q: Pair)
    requires Occurs(p) && Scene(p, LAST, map[FIRST := LAST], Serving(map[0 := FIRST]), [], []) && Untouched(p, 0) && Untouched(p, LAST)
    requires LAST in p.left.client.callers && p.left.client.callers[LAST] == Stored
    ensures Occurs(q) && Scene(q, LAST, map[], AfterReply(Serving(map[0 := FIRST, LAST := FIRST]), 0, r), [], [])
    ensures q.left.client.futures[LAST].delivered == [ReplyTo(0, r).rpc]
  {
    var s := SecondArrives(p);
    var both := Serving(map[0 := FIRST, LAST := FIRST]);
    var reply := AtServer(Right, DoReply(0, r, None, true));
    Answered(s, 0, r, map[FIRST := LAST], both);
    NextOccurs(s, reply);
    var t := Happen(s, reply);
    WrongFuture(t, r, AfterReply(both, 0, r));
    NextOccurs(t, Receive(Left));
    q := Happen(t, Receive(Left));
  }

  lemma Crashing(p: Pair, r: Response, server: Server) returns (q: Pair)
    requires Occurs(p) && Scene(p, LAST, map[], server, [], [])
    requires LAST in server.workers && server.workers[LAST] == FIRST
    ensures Occurs(q) && |q.left.client.issued| == TAG_SPACE + 1 && |q.right.client.issued| == 0
    ensures q.left.client.phase == Panicked(UnexpectedTag)
  {
    var reply := AtServer(Right, DoReply(LAST, r, None, true));
    Answered(p, LAST, r, map[], server);
    NextOccurs(p, reply);
    var s := Happen(p, reply);
    assert CanHappen(s, Receive(Left));
    NextOccurs(s, Receive(Left));
    q := Happen(s, Receive(Left));
    assert q.left.client == OnReply(s.left.client, ReplyTo(LAST, r).rpc);
  }

  ghost predicate SafeUpTo(n: nat) {
    forall p, side :: Occurs(p) && |p.left.client.issued| <= n && |p.right.client.issued| <= n ==> !p.At(side).client.phase.Panicked?
  }

  /** No run in which neither endpoint draws more than `n` tags panics, if and only if the
      counter can tell `n` calls apart. */
  lemma BoundIsExact(n: nat)
    ensures SafeUpTo(n) <==> n <= TAG_SPACE
  {
    if n <= TAG_SPACE {
      forall p, side | Occurs(p) && |p.left.client.issued| <= n && |p.right.client.issued| <= n
        ensures !p.At(side).client.phase.Panicked?
      {
        DuplexTheorems.NeverPanics(p, side);
      }
    } else {
      var m := RPC(0, "", "", Request([]), None);
      var _, _, crashed := OneTagTooMany(m, Response([], None));
      assert crashed.At(Left).client.phase.Panicked?;
    }
  }
}
