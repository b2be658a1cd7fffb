/** What the events of a run come to, told from the events alone: what callers asked, what
    workers sent and how the loop ended is what the other side, and the callers, get. */
module Histories {
  import opened Messages
  import opened Flow
  import opened Duplex
  import FlowInvariant
  import DuplexTheorems

  /** Each state follows from the one before by the event that is recorded. */
  ghost predicate IsPath(run: seq<Pair>, events: seq<Event>) {
    |run| == |events| + 1 && forall k :: 0 <= k < |events| ==> Leads(run, events, k)
  }

  predicate Leads(run: seq<Pair>, events: seq<Event>, k: nat)
    requires |run| == |events| + 1 && k < |events|
  {
    CanHappen(run[k], events[k]) && run[k + 1] == Happen(run[k], events[k])
  }

  ghost predicate IsHistory(run: seq<Pair>, events: seq<Event>) {
    IsPath(run, events) && run[0] == Start()
  }

  lemma HistoryIsRun(run: seq<Pair>, events: seq<Event>)
    requires IsHistory(run, events)
    ensures IsRun(run)
  {
    forall i, j | 0 <= i < j < |run| && j == i + 1 ensures Follows(run[i], run[j]) {
      assert Leads(run, events, i);
    }
  }

  /** Every run has a history. */
  lemma {:induction false} RunHasHistory(run: seq<Pair>, n: nat) returns (events: seq<Event>)
    requires IsRun(run) && 0 < n <= |run|
    ensures IsHistory(run[..n], events)
    decreases n
  {
    if n == 1 {
      events := [];
    } else {
      var before := RunHasHistory(run, n - 1);
      assert Follows(run[n - 2], run[n - 1]);
      var ev :| CanHappen(run[n - 2], ev) && run[n - 1] == Happen(run[n - 2], ev);
      events := before + [ev];
      forall k | 0 <= k < |events| ensures Leads(run[..n], events, k) {
        if k < n - 2 {
          assert Leads(run[..n - 1], before, k);
        }
      }
    }
  }

  lemma {:induction false} TagsSufficedBefore(run: seq<Pair>, events: seq<Event>, i: nat, j: nat)
    requires IsPath(run, events) && i <= j < |run| && TagsSuffice(run[j])
    ensures TagsSuffice(run[i])
    decreases j - i
  {
    if i < j {
      assert Leads(run, events, j - 1);
      IssuedOnlyGrows(run[j - 1], events[j - 1]);
      TagsSufficedBefore(run, events, i, j - 1);
    }
  }

  lemma HistoryInv(run: seq<Pair>, events: seq<Event>, k: nat, side: Side)
    requires IsHistory(run, events) && k < |run| && TagsSuffice(run[k])
    ensures PairInv(run[k]) && Inv(View(run[k], side))
  {
    HistoryIsRun(run, events);
    RunKeepsInv(run, k);
  }

  /** What is known of one step of a history. */
  lemma StepSound(run: seq<Pair>, events: seq<Event>, k: nat, side: Side)
    requires IsHistory(run, events) && k < |events| && TagsSuffice(run[k + 1])
    ensures TagsSuffice(run[k]) && PairInv(run[k]) && PairInv(run[k + 1])
    ensures CanHappen(run[k], events[k]) && run[k + 1] == Happen(run[k], events[k])
  {
    TagsSufficedBefore(run, events, k, k + 1);
    HistoryInv(run, events, k, side);
    HistoryInv(run, events, k + 1, side);
    assert Leads(run, events, k);
  }

  // ---------------------------------------------------------------- one event, seen from one client

  /** The event is a step of this client, the delivery of a reply to it, or nothing to it. */
  predicate Moves(p: Pair, ev: Event, side: Side)
    requires CanHappen(p, ev)
  {
    var c, d := p.At(side).client, Happen(p, ev).At(side).client;
    match ev
    case AtClient(at, step) => if at == side then d == ClientStep(c, step) else d == c
    case AtServer(_, _) => d == c
    case Receive(at) =>
      var m := p.At(Other(at)).out[0].rpc;
      if at == side && !m.content.Request? then CanReceive(c, m) && d == OnReply(c, m) else d == c
  }

  lemma EventMoves(p: Pair, ev: Event, side: Side)
    requires PairInv(p) && CanHappen(p, ev)
    ensures Moves(p, ev, side)
  {
    if ev.Receive? {
      HeadHasContent(p, ev.side);
    }
  }

  // ---------------------------------------------------------------- the end of the loop

  /** Call `n` is completed, or the client has yet to answer it. */
  predicate Owes(c: Client, n: nat) {
    && n < |c.futures| == |c.issued|
    && (c.futures[n].closed ||
        match c.phase
        case Running => !IsAllocated(c, n)
        case Draining(_, before) => n in before
        case Stopped(_, before) => n in before
        case _ => false)
  }

  lemma StepOwes(c: Client, step: Step, n: nat)
    requires Owes(c, n) && ClientEnabled(c, step) && !ClientStep(c, step).phase.Panicked?
    requires c.phase.Running? && !c.futures[n].closed ==> IsPending(c, n)
    ensures Owes(ClientStep(c, step), n)
  {
    if step.DoStartDrain? && !c.futures[n].closed {
      assert c.pending[c.issued[n].tag] == n;
    }
  }

  lemma ReplyOwes(c: Client, m: RPC, n: nat)
    requires Owes(c, n) && CanReceive(c, m) && !OnReply(c, m).phase.Panicked?
    ensures Owes(OnReply(c, m), n)
  {
  }

  lemma NotPanicked(p: Pair, side: Side)
    requires PairInv(p)
    ensures !p.At(side).client.phase.Panicked?
  {
    assert Inv(View(p, side));
  }

  lemma OpenIsPending(p: Pair, side: Side, n: nat)
    requires PairInv(p) && Owes(p.At(side).client, n)
    ensures var c := p.At(side).client; c.phase.Running? && !c.futures[n].closed ==> IsPending(c, n)
  {
    assert Inv(View(p, side));
    assert CallInv(View(p, side), n);
  }

  lemma EventOwes(p: Pair, ev: Event, side: Side, n: nat)
    requires PairInv(p) && CanHappen(p, ev) && PairInv(Happen(p, ev)) && Owes(p.At(side).client, n)
    ensures Owes(Happen(p, ev).At(side).client, n)
  {
    var c := p.At(side).client;
    EventMoves(p, ev, side);
    NotPanicked(Happen(p, ev), side);
    OpenIsPending(p, side, n);
    if ev.AtClient? && ev.side == side {
      StepOwes(c, ev.step, n);
    } else if ev.Receive? && ev.side == side && !p.At(Other(side)).out[0].rpc.content.Request? {
      ReplyOwes(c, p.At(Other(side)).out[0].rpc, n);
    }
  }

  lemma {:induction false} StillOwes(run: seq<Pair>, events: seq<Event>, i: nat, j: nat, side: Side, n: nat)
    requires IsHistory(run, events) && i <= j < |run| && TagsSuffice(run[j]) && Owes(run[i].At(side).client, n)
    ensures Owes(run[j].At(side).client, n)
    decreases j - i
  {
    if i < j {
      StepSound(run, events, j - 1, side);
      StillOwes(run, events, i, j - 1, side, n);
      EventOwes(run[j - 1], events[j - 1], side, n);
    }
  }

  /** A call that was pending while Run was in its loop is completed when Run has returned,
      whatever happened in between. */
  lemma PendingIsCompleted(run: seq<Pair>, i: nat, j: nat, side: Side, n: nat)
    requires IsRun(run) && i < j < |run| && TagsSuffice(run[j])
    requires run[i].At(side).client.phase.Running? && n < |run[i].At(side).client.issued| && IsPending(run[i].At(side).client, n)
    requires run[j].At(side).client.phase.Stopped?
    ensures n < |run[j].At(side).client.futures| && run[j].At(side).client.futures[n].closed
  {
    var events := RunHasHistory(run, |run|);
    assert run[..|run|] == run;
    TagsSufficedBefore(run, events, i, j);
    HistoryInv(run, events, i, side);
    assert CallInv(View(run[i], side), n);
    StillOwes(run, events, i, j, side, n);
    HistoryInv(run, events, j, side);
  }

  /** The message tells the caller of `tag` that the stream ended with `err`. */
  predicate TellsEnd(m: RPC, tag: Tag, err: Option<Failure>) {
    && m.tag == tag && m.content.Reply?
    && Observe(m.content.response) == Failed(match err case None => Status(UNKNOWN, "Unknown") case Some(f) => f)
  }

  /** The loop has ended with `err`, and call `n` has got `was` and is still to be told, or
      has been told. */
  predicate Ending(c: Client, n: nat, was: seq<RPC>, err: Option<Failure>) {
    && n < |c.futures| == |c.issued|
    && (c.phase.Draining? || c.phase.Stopped?) && c.phase.err == err && n in c.phase.before
    && var fu := c.futures[n];
       if fu.closed then |fu.delivered| == |was| + 1 && was <= fu.delivered && TellsEnd(fu.delivered[|was|], c.issued[n].tag, err)
       else fu.delivered == was
  }

  lemma StepEnding(c: Client, step: Step, n: nat, was: seq<RPC>, err: Option<Failure>)
    requires Ending(c, n, was, err) && ClientEnabled(c, step) && !ClientStep(c, step).phase.Panicked?
    requires forall t :: t in c.pending ==> c.pending[t] < |c.issued| && c.issued[c.pending[t]].tag == t
    ensures Ending(ClientStep(c, step), n, was, err)
  {
    if step.DoDrainOne? && c.pending[step.t] == n {
      assert ClientStep(c, step).futures[n].delivered == was + [DrainReply(step.t, err)];
    }
  }

  lemma TableIsTagged(p: Pair, side: Side)
    requires PairInv(p)
    ensures var c := p.At(side).client; forall t :: t in c.pending ==> c.pending[t] < |c.issued| && c.issued[c.pending[t]].tag == t
  {
    assert Inv(View(p, side));
  }

  lemma EventEnding(p: Pair, ev: Event, side: Side, n: nat, was: seq<RPC>, err: Option<Failure>)
    requires PairInv(p) && CanHappen(p, ev) && PairInv(Happen(p, ev)) && Ending(p.At(side).client, n, was, err)
    ensures Ending(Happen(p, ev).At(side).client, n, was, err)
  {
    EventMoves(p, ev, side);
    NotPanicked(Happen(p, ev), side);
    TableIsTagged(p, side);
    if ev.AtClient? && ev.side == side {
      StepEnding(p.At(side).client, ev.step, n, was, err);
    }
  }

  lemma {:induction false} StillEnding(run: seq<Pair>, events: seq<Event>, i: nat, j: nat, side: Side, n: nat,
                                       was: seq<RPC>, err: Option<Failure>)
    requires IsHistory(run, events) && i <= j < |run| && TagsSuffice(run[j]) && Ending(run[i].At(side).client, n, was, err)
    ensures Ending(run[j].At(side).client, n, was, err)
    decreases j - i
  {
    if i < j {
      StepSound(run, events, j - 1, side);
      StillEnding(run, events, i, j - 1, side, n, was, err);
      EventEnding(run[j - 1], events[j - 1], side, n, was, err);
    }
  }

  lemma DrainBegins(c: Client, n: nat, err: Option<Failure>)
    requires c.phase.Running? && n < |c.issued| == |c.futures| && IsPending(c, n) && !c.futures[n].closed
    ensures Ending(ClientStep(c, DoStartDrain(err)), n, c.futures[n].delivered, err)
  {
    assert c.pending[c.issued[n].tag] == n;
  }

  lemma EndingIsOver(p: Pair, side: Side, n: nat, was: seq<RPC>, err: Option<Failure>)
    requires PairInv(p) && Ending(p.At(side).client, n, was, err) && p.At(side).client.phase.Stopped?
    ensures p.At(side).client.futures[n].closed
  {
    assert Inv(View(p, side));
  }

  /** When the loop ends with `err`, every call that is pending then gets one more message by
      the time Run has returned, and it tells the caller of `err`. */
  lemma PendingReadsTheError(run: seq<Pair>, events: seq<Event>, i: nat, j: nat, side: Side, err: Option<Failure>, n: nat)
    requires IsHistory(run, events) && i < j < |run| && TagsSuffice(run[j]) && events[i] == AtClient(side, DoStartDrain(err))
    requires n < |run[i].At(side).client.issued| && IsPending(run[i].At(side).client, n)
    requires run[j].At(side).client.phase.Stopped?
    ensures n < |run[i].At(side).client.futures| && n < |run[j].At(side).client.futures|
    ensures var was, fu := run[i].At(side).client.futures[n].delivered, run[j].At(side).client.futures[n];
      && fu.closed && |fu.delivered| == |was| + 1 && was <= fu.delivered
      && TellsEnd(fu.delivered[|was|], run[i].At(side).client.issued[n].tag, err)
  {
    var c := run[i].At(side).client;
    TagsSufficedBefore(run, events, i, j);
    TagsSufficedBefore(run, events, i + 1, j);
    HistoryInv(run, events, i, side);
    assert CallInv(View(run[i], side), n);
    assert Leads(run, events, i);
    DrainBegins(c, n, err);
    StillEnding(run, events, i + 1, j, side, n, c.futures[n].delivered, err);
    HistoryInv(run, events, j, side);
    EndingIsOver(run[j], side, n, c.futures[n].delivered, err);
    IssuedStays(run, events, i, j, side);
  }

  lemma {:induction false} IssuedStays(run: seq<Pair>, events: seq<Event>, i: nat, j: nat, side: Side)
    requires IsHistory(run, events) && i <= j < |run| && TagsSuffice(run[j])
    ensures run[i].At(side).client.issued <= run[j].At(side).client.issued
    decreases j - i
  {
    if i < j {
      StepSound(run, events, j - 1, side);
      IssuedStays(run, events, i, j - 1, side);
      IssuedGrow(run[j - 1], events[j - 1], side);
    }
  }

  lemma IssuedGrow(p: Pair, ev: Event, side: Side)
    requires PairInv(p) && CanHappen(p, ev)
    ensures p.At(side).client.issued <= Happen(p, ev).At(side).client.issued
  {
    EventMoves(p, ev, side);
  }

  // ---------------------------------------------------------------- what callers ask

  /** The messages that callers at `side` passed to Request, in the order of their tags. */
  function Asked(events: seq<Event>, k: nat, side: Side): seq<RPC>
    requires k <= |events|
  {
    if k == 0 then []
    else
      var before := Asked(events, k - 1, side);
      match events[k - 1]
      case AtClient(at, DoAllocate(m)) => if at == side then before + [m] else before
      case _ => before
  }

  predicate SameButTags(a: seq<RPC>, b: seq<RPC>) {
    |a| == |b| && forall i :: 0 <= i < |a| ==>
      && a[i].serviceName == b[i].serviceName && a[i].methodName == b[i].methodName
      && a[i].content == b[i].content && a[i].metadata == b[i].metadata
  }

  lemma OneMoreAsked(a: seq<RPC>, b: seq<RPC>, longer: seq<RPC>, m: RPC)
    requires SameButTags(a, b) && |longer| == |a| + 1 && a <= longer && SameButTags([longer[|a|]], [m])
    ensures SameButTags(longer, b + [m])
  {
    assert [longer[|a|]][0] == longer[|a|] && [m][0] == m;
  }

  /** What an event adds to the requests of a client. */
  lemma RequestEvent(p: Pair, ev: Event, side: Side)
    requires PairInv(p) && CanHappen(p, ev)
    ensures var a, b := p.At(side).client.issued, Happen(p, ev).At(side).client.issued;
      match ev
      case AtClient(at, DoAllocate(m)) => if at == side then |b| == |a| + 1 && a <= b && SameButTags([b[|a|]], [m]) else b == a
      case _ => b == a
  {
    EventMoves(p, ev, side);
  }

  /** The requests are those the callers made, but for their tags. */
  lemma {:induction false} RequestsAreAsMade(run: seq<Pair>, events: seq<Event>, k: nat, side: Side)
    requires IsHistory(run, events) && k < |run| && TagsSuffice(run[k])
    ensures SameButTags(run[k].At(side).client.issued, Asked(events, k, side))
  {
    if k > 0 {
      StepSound(run, events, k - 1, side);
      RequestsAreAsMade(run, events, k - 1, side);
      RequestEvent(run[k - 1], events[k - 1], side);
      if events[k - 1].AtClient? && events[k - 1].side == side && events[k - 1].step.DoAllocate? {
        OneMoreAsked(run[k - 1].At(side).client.issued, Asked(events, k - 1, side), run[k].At(side).client.issued, events[k - 1].step.m);
      }
    }
  }

  // ---------------------------------------------------------------- what workers send

  datatype Said = Said(content: Content, metadata: Option<MD>)

  /** What the worker at `side` for call `n` of the peer sent without an error. */
  function SaidBy(events: seq<Event>, k: nat, side: Side, n: nat): seq<Said>
    requires k <= |events|
  {
    if k == 0 then []
    else
      var before := SaidBy(events, k - 1, side, n);
      match events[k - 1]
      case AtServer(at, DoStream(m, msg, md, true)) => if at == side && m == n then before + [Said(StreamMsg(msg), md)] else before
      case AtServer(at, DoReply(m, r, md, true)) => if at == side && m == n then before + [Said(Reply(r), md)] else before
      case _ => before
  }

  predicate Says(ms: seq<RPC>, said: seq<Said>) {
    |ms| == |said| && forall i :: 0 <= i < |ms| ==> ms[i].content == said[i].content && ms[i].metadata == said[i].metadata
  }

  /** What a worker event adds to the record of the worker's messages. */
  lemma WorkerEvent(p: Pair, ev: Event, side: Side, n: nat)
    requires CanHappen(p, ev)
    ensures var a, b := Emitted(p.At(side).server, n), Emitted(Happen(p, ev).At(side).server, n);
      match ev
      case AtServer(at, DoStream(m, msg, md, true)) =>
        if at == side && m == n then |b| == |a| + 1 && a <= b && b[|a|].content == StreamMsg(msg) && b[|a|].metadata == md else b == a
      case AtServer(at, DoReply(m, r, md, true)) =>
        if at == side && m == n then |b| == |a| + 1 && a <= b && b[|a|].content == Reply(r) && b[|a|].metadata == md else b == a
      case _ => b == a
  {
  }

  lemma {:induction false} EmittedIsSaid(run: seq<Pair>, events: seq<Event>, k: nat, side: Side, n: nat)
    requires IsHistory(run, events) && k < |run|
    ensures Says(Emitted(run[k].At(side).server, n), SaidBy(events, k, side, n))
  {
    if k > 0 {
      EmittedIsSaid(run, events, k - 1, side, n);
      assert Leads(run, events, k - 1);
      WorkerEvent(run[k - 1], events[k - 1], side, n);
    }
  }

  /** For every call: what its future got from the peer, followed by what is on the wire for
      it, is what the peer's worker sent, content and metadata, in order, all under the
      call's tag; without a drain that is all it got. */
  lemma CallersGetWhatWorkersSent(run: seq<Pair>, events: seq<Event>, k: nat, side: Side, n: nat)
    requires IsHistory(run, events) && k < |run| && TagsSuffice(run[k]) && n < |run[k].At(side).client.issued|
    ensures n < |run[k].At(side).client.futures|
    ensures var c, flying := run[k].At(side).client, InFlight(Keep(run[k].At(Other(side)).out, false), n);
      && Says(FromPeer(c, n) + flying, SaidBy(events, k, Other(side), n))
      && Under(FromPeer(c, n), c.issued[n].tag)
      && (n !in c.drained ==> FromPeer(c, n) == c.futures[n].delivered)
  {
    HistoryIsRun(run, events);
    assert Reached(run[k]);
    DuplexTheorems.RepliesArriveInOrder(run[k], side, n);
    DuplexTheorems.FutureHistory(run[k], side, n);
    EmittedIsSaid(run, events, k, Other(side), n);
  }

  // ---------------------------------------------------------------- nothing gets stuck

  /** A path goes on by one event. */
  lemma OneMore(run: seq<Pair>, events: seq<Event>, ev: Event) returns (longer: seq<Pair>, more: seq<Event>)
    requires IsPath(run, events) && CanHappen(run[|run| - 1], ev) && Reached(run[|run| - 1]) && TagsSuffice(Happen(run[|run| - 1], ev))
    ensures IsPath(longer, more) && longer[0] == run[0] && longer[|longer| - 1] == Happen(run[|run| - 1], ev)
    ensures more == events + [ev] && Reached(longer[|longer| - 1])
  {
    longer, more := run + [Happen(run[|run| - 1], ev)], events + [ev];
    forall k | 0 <= k < |more| ensures Leads(longer, more, k) {
      if k < |events| {
        assert Leads(run, events, k);
      }
    }
    NextOccurs(run[|run| - 1], ev);
  }

  /** The entry under `t` has room, or is closed, and nothing else has changed but for what
      its consumer has read. */
  predicate Roomy(c: Client, d: Client, t: Tag) {
    Unblocked(d, t) && d.pending == c.pending && d.phase == c.phase && d.issued == c.issued && |d.futures| == |c.futures|
  }

  lemma TakeMakesRoom(c: Client, n: nat, t: Tag)
    requires n < |c.futures| == |c.issued| && FutureInv(c, n) && t in c.pending && c.pending[t] == n && !Unblocked(c, t)
    ensures ClientEnabled(c, DoTake(n)) && Roomy(c, ClientStep(c, DoTake(n)), t)
  {
  }

  lemma FutureIsSound(p: Pair, side: Side, n: nat)
    requires Reached(p) && n < |p.At(side).client.issued|
    ensures n < |p.At(side).client.futures| == |p.At(side).client.issued| && FutureInv(p.At(side).client, n)
  {
    ReachedInv(p, side);
    assert CallInv(View(p, side), n);
  }

  /** A consumer that has not read its future can do so. */
  lemma RoomCanBeMade(p: Pair, side: Side, t: Tag) returns (run: seq<Pair>, events: seq<Event>)
    requires Reached(p) && t in p.At(side).client.pending && p.At(side).client.pending[t] < |p.At(side).client.issued|
    ensures IsPath(run, events) && run[0] == p && Reached(run[|run| - 1])
    ensures Roomy(p.At(side).client, run[|run| - 1].At(side).client, t) && run[|run| - 1].At(Other(side)) == p.At(Other(side))
    ensures events == [] || exists n :: events == [AtClient(side, DoTake(n))]
  {
    run, events := [p], [];
    var c := p.At(side).client;
    var n := c.pending[t];
    FutureIsSound(p, side, n);
    if !Unblocked(c, t) {
      TakeMakesRoom(c, n, t);
      var ev := AtClient(side, DoTake(n));
      run, events := OneMore([p], [], ev);
      assert events == [ev];
    }
  }

  /** Callers can always ask, whoever is inside Request can go on, and a worker can always
      stream, reply or give up, whether its sends succeed or not. */
  lemma EveryoneCanMove(p: Pair, side: Side, n: nat, m: RPC, msg: ServerStreamMessage, r: Response, md: Option<MD>, ok: bool)
    requires Reached(p)
    ensures m.content.Request? ==> CanHappen(p, AtClient(side, DoAllocate(m)))
    ensures n in p.At(side).client.callers ==>
      CanHappen(p, AtClient(side, DoStore(n))) || CanHappen(p, AtClient(side, DoSend(n, ok)))
    ensures n in p.At(side).server.workers ==>
      && CanHappen(p, AtServer(side, DoStream(n, msg, md, ok)))
      && CanHappen(p, AtServer(side, DoReply(n, r, md, ok)))
      && CanHappen(p, AtServer(side, DoAbandon(n)))
    ensures p.At(side).client.phase.Running? ==> forall err :: CanHappen(p, AtClient(side, DoStartDrain(err)))
  {
    ReachedInv(p, side);
  }

  /** The next message on the wire can be processed, if need be after one consumer has read
      one message. */
  lemma LoopCanGoOn(p: Pair, side: Side) returns (run: seq<Pair>, events: seq<Event>)
    requires Reached(p) && p.At(side).client.phase.Running? && p.At(Other(side)).out != []
    ensures IsPath(run, events) && run[0] == p && CanHappen(run[|run| - 1], Receive(side))
    ensures events == [] || exists n :: events == [AtClient(side, DoTake(n))]
  {
    var m := p.At(Other(side)).out[0];
    if IsRequest(m) {
      run, events := [p], [];
    } else {
      DuplexTheorems.ReplyReachesItsCaller(p, side);
      run, events := RoomCanBeMade(p, side, m.rpc.tag);
      FuturesAreThere(run[|run| - 1], side);
    }
  }

  lemma FuturesAreThere(p: Pair, side: Side)
    requires Reached(p)
    ensures var c := p.At(side).client; forall t :: t in c.pending ==> c.pending[t] < |c.futures| == |c.issued|
  {
    ReachedInv(p, side);
  }

  lemma OpenInTable(p: Pair, side: Side, t: Tag)
    requires Reached(p) && t in p.At(side).client.pending
    ensures var c := p.At(side).client; c.pending[t] < |c.futures| && !c.futures[c.pending[t]].closed
  {
    ReachedInv(p, side);
    var c := p.At(side).client;
    assert CallInv(View(p, side), c.pending[t]) && IsPending(c, c.pending[t]);
  }

  /** The drain can answer one entry, if need be after its consumer has read. */
  lemma DrainCanGoOn(p: Pair, side: Side, t: Tag) returns (run: seq<Pair>, events: seq<Event>)
    requires Reached(p) && p.At(side).client.phase.Draining? && t in p.At(side).client.pending
    ensures IsPath(run, events) && run[0] == p && Reached(run[|run| - 1])
    ensures var d := run[|run| - 1].At(side).client; d.phase.Draining? && d.pending == p.At(side).client.pending - {t}
  {
    FuturesAreThere(p, side);
    run, events := RoomCanBeMade(p, side, t);
    var q := run[|run| - 1];
    OpenInTable(q, side, t);
    run, events := OneMore(run, events, AtClient(side, DoDrainOne(t)));
  }

  lemma Append(run: seq<Pair>, events: seq<Event>, run': seq<Pair>, events': seq<Event>)
    returns (longer: seq<Pair>, more: seq<Event>)
    requires IsPath(run, events) && IsPath(run', events') && run[|run| - 1] == run'[0]
    ensures IsPath(longer, more) && longer[0] == run[0] && longer[|longer| - 1] == run'[|run'| - 1]
  {
    longer, more := run + run'[1..], events + events';
    forall k | 0 <= k < |more| ensures Leads(longer, more, k) {
      if k < |events| {
        assert Leads(run, events, k);
      } else {
        assert Leads(run', events', k - |events|);
      }
    }
  }

  /** From every state in which Run is draining, it can return. */
  lemma {:induction false} DrainCanFinish(p: Pair, side: Side) returns (run: seq<Pair>, events: seq<Event>)
    requires Reached(p) && p.At(side).client.phase.Draining?
    ensures IsPath(run, events) && run[0] == p && run[|run| - 1].At(side).client.phase.Stopped?
    decreases |p.At(side).client.pending|
  {
    var c := p.At(side).client;
    if c.pending == map[] {
      run, events := OneMore([p], [], AtClient(side, DoEndDrain));
    } else {
      var t :| t in c.pending;
      var run1, events1 := DrainCanGoOn(p, side, t);
      assert c.pending.Keys == (c.pending - {t}).Keys + {t};
      var run2, events2 := DrainCanFinish(run1[|run1| - 1], side);
      run, events := Append(run1, events1, run2, events2);
    }
  }
}
