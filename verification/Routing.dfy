/** "First" routing: a request for a service goes to the oldest handler, which is local or
    leads to the peer of another controller, where the same happens again. */
module Routing {
  import opened Messages
  import opened Registry
  import opened Sets

  /** Where a handler for the service in question sends a request: to a local
      implementation, or to the controller at the other end of some stream. */
  datatype Hop = Here | Via(target: Uuid)

  /** The oldest live handler of each controller that has one. */
  type Table = map<Uuid, Hop>

  datatype RouteResult = Served(at: Uuid) | Unknown(at: Uuid) | StillForwarding(at: Uuid)

  /** Follow the oldest handlers for at most `fuel` controllers. */
  function Route(table: Table, a: Uuid, fuel: nat): RouteResult
    decreases fuel
  {
    if fuel == 0 then StillForwarding(a)
    else if a !in table then Unknown(a)
    else match table[a]
      case Here => Served(a)
      case Via(target) => Route(table, target, fuel - 1)
  }

  /** Where routing ends there is a local handler, and it is the oldest one there. */
  lemma {:induction false} ServedIsLocal(table: Table, a: Uuid, fuel: nat)
    requires Route(table, a, fuel).Served?
    ensures var b := Route(table, a, fuel).at; b in table && table[b] == Here
    decreases fuel
  {
    if table[a].Via? {
      ServedIsLocal(table, table[a].target, fuel - 1);
    }
  }

  // ---------------------------------------------------------------- when routing ends

  /** Forwarding goes down in rank. */
  predicate Descends(table: Table, rank: map<Uuid, nat>) {
    forall c :: c in rank && c in table && table[c].Via? ==>
      table[c].target in rank && rank[table[c].target] < rank[c]
  }

  /** Every ranked controller has a handler, too. */
  predicate Ranked(table: Table, rank: map<Uuid, nat>) {
    Descends(table, rank) && rank.Keys <= table.Keys
  }

  lemma {:induction false} RankBoundsRoute(table: Table, rank: map<Uuid, nat>, a: Uuid, fuel: nat)
    requires Descends(table, rank) && a in rank && fuel > rank[a]
    ensures !Route(table, a, fuel).StillForwarding?
    ensures rank.Keys <= table.Keys ==> Route(table, a, fuel).Served?
    decreases rank[a]
  {
    if a in table && table[a].Via? {
      RankBoundsRoute(table, rank, table[a].target, fuel - 1);
    }
  }

  function Below(rank: map<Uuid, nat>, a: Uuid): set<Uuid>
    requires a in rank
  {
    set c | c in rank && rank[c] < rank[a]
  }

  lemma BelowShrinks(rank: map<Uuid, nat>, a: Uuid, b: Uuid)
    requires a in rank && b in rank && rank[b] < rank[a]
    ensures |Below(rank, b)| < |Below(rank, a)|
  {
    Subset(Below(rank, b) + {b}, Below(rank, a));
  }

  lemma {:induction false} RouteStaysBelow(table: Table, rank: map<Uuid, nat>, a: Uuid, fuel: nat)
    requires Descends(table, rank) && a in rank && fuel > |Below(rank, a)|
    ensures !Route(table, a, fuel).StillForwarding?
    decreases rank[a]
  {
    if a in table && table[a].Via? {
      BelowShrinks(rank, a, table[a].target);
      RouteStaysBelow(table, rank, table[a].target, fuel - 1);
    }
  }

  /** Whatever the ranks, a route passes no more controllers than are ranked. */
  lemma RankedRouteIsShort(table: Table, rank: map<Uuid, nat>, a: Uuid, fuel: nat)
    requires Descends(table, rank) && a in rank && fuel > |rank|
    ensures !Route(table, a, fuel).StillForwarding?
  {
    Subset(Below(rank, a), rank.Keys);
    assert |rank.Keys| == |rank|;
    RouteStaysBelow(table, rank, a, fuel);
  }

  /** Rank the controllers of a route by their distance from its end. */
  lemma {:induction false} RouteGivesRank(table: Table, a: Uuid, fuel: nat) returns (rank: map<Uuid, nat>)
    requires !Route(table, a, fuel).StillForwarding?
    ensures Descends(table, rank) && a in rank
    ensures Route(table, a, fuel).Served? ==> Ranked(table, rank)
    decreases fuel
  {
    if a in table && table[a].Via? {
      rank := RouteGivesRank(table, table[a].target, fuel - 1);
      if a !in rank {
        rank := rank[a := rank[table[a].target] + 1];
      }
    } else {
      rank := map[a := 0];
    }
  }

  /** A request is served if and only if the controllers on its way can be ranked so that
      each has a handler and forwards only downwards: a caller can check this as
      acyclicity of the graph of oldest handlers. */
  lemma ServedExactly(table: Table, a: Uuid)
    ensures (exists fuel :: Route(table, a, fuel).Served?) <==> (exists rank :: Ranked(table, rank) && a in rank)
  {
    if fuel :| Route(table, a, fuel).Served? {
      var rank := RouteGivesRank(table, a, fuel);
    }
    if rank :| Ranked(table, rank) && a in rank {
      RankBoundsRoute(table, rank, a, rank[a] + 1);
    }
  }

  /** It goes round for ever if and only if there is no ranking even when dead ends are
      allowed. */
  lemma LoopsExactly(table: Table, a: Uuid)
    ensures (forall fuel :: Route(table, a, fuel).StillForwarding?) <==> !(exists rank :: Descends(table, rank) && a in rank)
  {
    if fuel :| !Route(table, a, fuel).StillForwarding? {
      var rank := RouteGivesRank(table, a, fuel);
    }
    if rank :| Descends(table, rank) && a in rank {
      RankBoundsRoute(table, rank, a, rank[a] + 1);
    }
  }

  // ---------------------------------------------------------------- histories of registrations

  /** Events in the order in which they happened anywhere in the graph; `Removed(i)` is the
      end of the context of the handler that event `i` registered. */
  datatype Event = Registered(at: Uuid, hop: Hop) | Removed(i: nat)

  predicate IsLive(events: seq<Event>, i: nat, n: nat)
    requires i < n <= |events|
  {
    events[i].Registered? && forall j :: i < j < n ==> events[j] != Removed(i)
  }

  /** Time of the oldest of the handlers at `a`, registered at `i` or later, that are live
      after `n` events. */
  function OldestFrom(events: seq<Event>, a: Uuid, i: nat, n: nat): (t: Option<nat>)
    requires i <= n <= |events|
    ensures t.Some? ==> i <= t.value < n && IsLive(events, t.value, n) && events[t.value].at == a
    ensures forall j :: i <= j < n && IsLive(events, j, n) && events[j].at == a ==> t.Some? && t.value <= j
    decreases n - i
  {
    if i == n then None
    else if IsLive(events, i, n) && events[i].at == a then Some(i)
    else OldestFrom(events, a, i + 1, n)
  }

  function OldestAt(events: seq<Event>, a: Uuid, n: nat): Option<nat>
    requires n <= |events|
  {
    OldestFrom(events, a, 0, n)
  }

  function Places(events: seq<Event>): set<Uuid> {
    set i | 0 <= i < |events| && events[i].Registered? :: events[i].at
  }

  function TableOf(events: seq<Event>): Table {
    map a | a in Places(events) && OldestAt(events, a, |events|).Some? :: events[OldestAt(events, a, |events|).value].hop
  }

  lemma TableHasOldest(events: seq<Event>, a: Uuid)
    ensures a in TableOf(events) <==> OldestAt(events, a, |events|).Some?
  {
    if OldestAt(events, a, |events|).Some? {
      assert events[OldestAt(events, a, |events|).value].at in Places(events);
    }
  }

  /** When a forwarding handler was registered, its target already had a handler. */
  predicate TargetReady(events: seq<Event>, i: nat)
    requires i < |events|
  {
    events[i].Registered? && events[i].hop.Via? ==> OldestAt(events, events[i].hop.target, i).Some?
  }

  predicate TargetsReady(events: seq<Event>) {
    forall i :: 0 <= i < |events| ==> TargetReady(events, i)
  }

  predicate NothingRemoved(events: seq<Event>) {
    forall i :: 0 <= i < |events| ==> events[i].Registered?
  }

  /** If no handler is removed and targets were ready, each forward moves to a controller
      whose oldest handler is older, so a request for a known service reaches a local
      handler, on cyclic graphs too, after at most as many forwards as the oldest handler
      is old. */
  lemma {:induction false} RoutingReachesAHandler(events: seq<Event>, a: Uuid, fuel: nat)
    requires TargetsReady(events) && NothingRemoved(events)
    requires OldestAt(events, a, |events|).Some? && fuel > OldestAt(events, a, |events|).value
    ensures Route(TableOf(events), a, fuel).Served?
    decreases OldestAt(events, a, |events|).value
  {
    var t := OldestAt(events, a, |events|).value;
    TableHasOldest(events, a);
    if events[t].hop.Via? {
      assert TargetReady(events, t);
      var b := events[t].hop.target;
      assert IsLive(events, OldestAt(events, b, t).value, |events|);
      RoutingReachesAHandler(events, b, fuel - 1);
    }
  }

  // ---------------------------------------------------------------- when it does not end

  /** Two controllers whose oldest handlers lead to each other. */
  lemma {:induction false} Circling(table: Table, a: Uuid, b: Uuid, fuel: nat)
    requires a in table && b in table && table[a] == Via(b) && table[b] == Via(a)
    ensures Route(table, a, fuel).StillForwarding? && Route(table, b, fuel).StillForwarding?
  {
    if fuel > 0 {
      Circling(table, a, b, fuel - 1);
    }
  }

  /** Readiness is needed.  RegisterServiceHandler takes any handler: an application that
      makes two controllers forward to each other, through invokers of theirs, sends a
      request back and forth for ever. */
  lemma MutualForwardingNeverEnds(a: Uuid, b: Uuid, fuel: nat)
    requires a != b
    ensures var events := [Registered(a, Via(b)), Registered(b, Via(a))];
      !TargetsReady(events) && Route(TableOf(events), a, fuel).StillForwarding? && Route(TableOf(events), b, fuel).StillForwarding?
  {
    var events := [Registered(a, Via(b)), Registered(b, Via(a))];
    assert !TargetReady(events, 0);
    assert IsLive(events, 0, 2) && IsLive(events, 1, 2);
    TableHasOldest(events, a);
    TableHasOldest(events, b);
    Circling(TableOf(events), a, b, fuel);
  }

  /** And so is it that nothing is removed.  Here every target was ready, the service has an
      implementation at `c` that is still registered there, and yet a request at `a` or
      `b` goes round for ever once the handler that led to `c` is gone. */
  function Bereft(a: Uuid, b: Uuid, c: Uuid): seq<Event> {
    [Registered(c, Here), Registered(a, Via(c)), Registered(b, Via(a)), Registered(a, Via(b)), Removed(1)]
  }

  lemma BereftLists(a: Uuid, b: Uuid, c: Uuid)
    requires a != b && b != c && a != c
    ensures forall i :: 0 <= i < 5 ==> TargetReady(Bereft(a, b, c), i)
    ensures OldestAt(Bereft(a, b, c), a, 5) == Some(3) && OldestAt(Bereft(a, b, c), b, 5) == Some(2)
    ensures OldestAt(Bereft(a, b, c), c, 5) == Some(0)
  {
    var events := Bereft(a, b, c);
    assert IsLive(events, 0, 1) && IsLive(events, 1, 2) && IsLive(events, 2, 3);
    assert events[4] == Removed(1) && !IsLive(events, 1, 5);
    assert IsLive(events, 0, 5) && IsLive(events, 2, 5) && IsLive(events, 3, 5);
  }

  lemma RemovalCanLoop(a: Uuid, b: Uuid, c: Uuid, fuel: nat)
    requires a != b && b != c && a != c
    ensures var events := Bereft(a, b, c);
      && TargetsReady(events) && c in TableOf(events) && TableOf(events)[c] == Here
      && Route(TableOf(events), a, fuel).StillForwarding? && Route(TableOf(events), b, fuel).StillForwarding?
  {
    var events := Bereft(a, b, c);
    BereftLists(a, b, c);
    TableHasOldest(events, a);
    TableHasOldest(events, b);
    TableHasOldest(events, c);
    Circling(TableOf(events), a, b, fuel);
  }
}
