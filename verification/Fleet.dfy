/** What Splice and Serve can build: the controllers of any number of servers, main and
    spliced, joined by streams of every kind, cyclic ones included, and their handlers for
    one service.  A request for it never goes round for ever.

    Splice holds the server's lock from before it creates its controller until it has
    registered what the peer reported; Serve holds the same lock, shared, as long as the
    main controller runs.  So a main controller gets no handler once it runs.  A spliced
    one reports what it has registered itself and nothing else (Topology.SplicedReportsOwn).
    Between the peer's answer and the registration anything may happen elsewhere. */
module Fleet {
  import opened Messages
  import opened Registry
  import opened Routing

  /** A handler: local, or going out on the stream of controller `out`.  It may be removed
      once the context of the stream of `context` has ended. */
  datatype Entry = Entry(out: Option<Uuid>, context: Uuid, time: nat)

  /** A splice under way, which holds the server's lock: it waits for the peer of its
      controller to answer, or was told that the service is there. */
  datatype Splicing = Asking(ctrl: Uuid) | Told(ctrl: Uuid)

  /** `peers` maps a controller to the one at the other end of its stream, and `home` a spliced
      controller to the main one of its server; `started` is when its loop started, `ended`
      are the controllers whose stream's context has ended, and `told` the main ones whose
      peer reported the service to Serve. */
  datatype Fleet = Fleet(clock: nat, peers: map<Uuid, Uuid>, mains: set<Uuid>, home: map<Uuid, Uuid>,
                         started: map<Uuid, nat>, stopped: set<Uuid>, ended: set<Uuid>,
                         lists: map<Uuid, seq<Entry>>, splicing: map<Uuid, Splicing>, told: set<Uuid>)

  predicate Running(f: Fleet, a: Uuid) { a in f.started && a !in f.stopped }

  function ListAt(f: Fleet, a: Uuid): seq<Entry> { if a in f.lists then f.lists[a] else [] }

  datatype Op =
    | NewServer(main: Uuid)
    | RegisterService(main: Uuid)
    | SpliceBegins(main: Uuid, ctrl: Uuid, visible: bool)   // `visible`: whether spliced peers may see local handlers
    | SpliceIsTold(main: Uuid)
    | SpliceEnds(main: Uuid)
    | Serve(main: Uuid)
    | ServeIsTold(main: Uuid)
    | Replicate(ctrl: Uuid)
    | RunEnds(at: Uuid)
    | ContextEnds(at: Uuid)
    | HandlerEnds(at: Uuid, i: nat)

  /** Nobody holds the server's lock. */
  predicate Unlocked(f: Fleet, main: Uuid) { main in f.mains && main !in f.splicing && !Running(f, main) }

  /** What it takes for a controller to report the service.  A main one may have it from
      others. */
  predicate CanReport(f: Fleet, b: Uuid) { b in f.started && (b in f.home ==> ListAt(f, b) != []) }

  predicate Enabled(f: Fleet, op: Op) {
    match op
    case NewServer(main) => main !in f.mains && main !in f.home
    case RegisterService(main) => Unlocked(f, main)
    case SpliceBegins(main, ctrl, _) => Unlocked(f, main) && ctrl !in f.mains && ctrl !in f.home
    case SpliceIsTold(main) =>
      main in f.splicing && f.splicing[main].ctrl in f.peers && CanReport(f, f.peers[f.splicing[main].ctrl])
    case SpliceEnds(main) => main in f.splicing
    case Serve(main) => main in f.mains && main !in f.started && main !in f.splicing
    case ServeIsTold(main) => main in f.mains && main in f.started && main in f.peers && CanReport(f, f.peers[main])
    case Replicate(ctrl) => ctrl in f.home && f.home[ctrl] in f.told
    case RunEnds(at) => Running(f, at)
    case ContextEnds(_) => true
    case HandlerEnds(at, i) => i < |ListAt(f, at)| && ListAt(f, at)[i].context in f.ended
  }

  /** The local handlers of a list, registered anew. */
  function Locals(list: seq<Entry>, time: nat): (r: seq<Entry>)
    ensures forall e :: e in r ==> e.time == time && e.out.None? && Entry(None, e.context, time) == e
    ensures forall e :: e in r ==> exists d :: d in list && d.out.None? && d.context == e.context
  {
    if list == [] then []
    else if list[0].out.None? then [list[0].(time := time)] + Locals(list[1..], time)
    else Locals(list[1..], time)
  }

  function Add(f: Fleet, at: Uuid, out: Option<Uuid>, context: Uuid): Fleet {
    f.(lists := f.lists[at := ListAt(f, at) + [Entry(out, context, f.clock)]])
  }

  function Effect(f: Fleet, op: Op): Fleet
    requires Enabled(f, op)
  {
    match op
    case NewServer(main) => f.(mains := f.mains + {main})
    case RegisterService(main) => Add(f, main, None, main)
    case SpliceBegins(main, ctrl, visible) =>
      f.(home := f.home[ctrl := main], started := f.started[ctrl := f.clock], splicing := f.splicing[main := Asking(ctrl)],
         lists := f.lists[ctrl := if visible then Locals(ListAt(f, main), f.clock) else []])
    case SpliceIsTold(main) => f.(splicing := f.splicing[main := Told(f.splicing[main].ctrl)])
    case SpliceEnds(main) =>
      var g := f.(splicing := f.splicing - {main});
      if f.splicing[main].Told? then Add(g, main, Some(f.splicing[main].ctrl), f.splicing[main].ctrl) else g
    case Serve(main) => f.(started := f.started[main := f.clock])
    case ServeIsTold(main) => f.(told := f.told + {main})
    case Replicate(ctrl) => Add(f, ctrl, Some(f.home[ctrl]), f.home[ctrl])
    case RunEnds(at) => f.(stopped := f.stopped + {at})
    case ContextEnds(at) => f.(ended := f.ended + {at})
    case HandlerEnds(at, i) => f.(lists := f.lists[at := ListAt(f, at)[..i] + ListAt(f, at)[i + 1..]])
  }

  function Apply(f: Fleet, op: Op): Fleet
    requires Enabled(f, op)
  {
    Effect(f, op).(clock := f.clock + 1)
  }

  /** The first handler is followed, unless it goes out on a stream whose context has ended. */
  predicate Leads(f: Fleet, e: Entry) { e.out.Some? ==> e.out.value !in f.ended && e.out.value in f.peers }

  /** A controller whose loop runs follows its oldest handler; others answer nothing. */
  function TableOf(f: Fleet): Table {
    map a | a in f.lists && Running(f, a) && f.lists[a] != [] && Leads(f, f.lists[a][0]) ::
      if f.lists[a][0].out.None? then Here else Via(f.peers[f.lists[a][0].out.value])
  }

  /** A life of the fleet: each state follows from the one before by one operation. */
  ghost predicate IsLife(life: seq<Fleet>, ops: seq<Op>) {
    |life| == |ops| + 1 && IsNew(life[0]) && forall i :: 0 <= i < |ops| ==> Next(life, ops, i)
  }

  /** Any streams, and nothing else. */
  predicate IsNew(f: Fleet) { f == Fleet(0, f.peers, {}, map[], map[], {}, {}, map[], map[], {}) }

  predicate Next(life: seq<Fleet>, ops: seq<Op>, i: nat)
    requires |life| == |ops| + 1 && i < |ops|
  {
    Enabled(life[i], ops[i]) && life[i + 1] == Apply(life[i], ops[i])
  }

  // ---------------------------------------------------------------- invariant

  /** `b` could report the service before time `t`: a main controller that had started, or a
      spliced one with a handler that is older, and will stay as long as its server's own
      stream lives. */
  predicate Ready(f: Fleet, b: Uuid, t: nat) {
    && b in f.started
    && (b in f.mains ==> f.started[b] < t)
    && (b in f.home ==> f.home[b] in f.ended || (ListAt(f, b) != [] && ListAt(f, b)[0].time < t))
  }

  predicate ReadyAcross(f: Fleet, ctrl: Uuid, t: nat) { ctrl in f.peers && Ready(f, f.peers[ctrl], t) }

  /** A handler is older than the loop of the main controller it is at; at a spliced one it
      depends on the server's own stream. */
  predicate EntryInv(f: Fleet, a: Uuid, e: Entry) {
    && e.time < f.clock
    && (a in f.mains && Running(f, a) ==> e.time < f.started[a])
    && (a in f.mains && e.out.None? ==> e.context == a)
    && (a in f.home ==> e.context == f.home[a] && (e.out.Some? ==> e.out.value == f.home[a]))
    && (e.out.Some? ==> ReadyAcross(f, e.out.value, e.time))
  }

  predicate Kinds(f: Fleet) {
    && (forall c :: c in f.home ==> c !in f.mains && c in f.started && f.home[c] in f.mains)
    && (forall a :: a in f.lists.Keys + f.started.Keys ==> a in f.mains || a in f.home)
    && (forall a :: a in f.started ==> f.started[a] < f.clock)
    && (forall m :: m in f.splicing ==> m in f.mains && !Running(f, m))
  }

  ghost predicate Inv(f: Fleet) {
    && Kinds(f)
    && (forall a, e :: a in f.lists && e in f.lists[a] ==> EntryInv(f, a, e))
    && (forall m :: m in f.splicing && f.splicing[m].Told? ==> ReadyAcross(f, f.splicing[m].ctrl, f.clock))
    && (forall m :: m in f.told ==> ReadyAcross(f, m, f.clock))
  }

  /** What a later state keeps of an earlier one: who is what, and when it started. */
  predicate Remembers(f: Fleet, g: Fleet, b: Uuid)
    requires b in f.started
  {
    && b in g.started && g.started[b] == f.started[b]
    && (b in g.mains ==> b in f.mains)
    && (b in g.home ==> b in f.home && g.home[b] == f.home[b])
  }

  /** The list of a spliced controller only gets longer while its server's stream lives. */
  predicate ListGrows(f: Fleet, g: Fleet, b: Uuid)
    requires b in f.home
  {
    f.home[b] in g.ended || ListAt(f, b) <= ListAt(g, b)
  }

  ghost predicate Grows(f: Fleet, g: Fleet) {
    && g.clock > f.clock && g.peers == f.peers && f.ended <= g.ended && f.stopped <= g.stopped
    && (forall b :: b in f.started ==> Remembers(f, g, b))
    && (forall b :: b in f.started && b in f.home ==> ListGrows(f, g, b))
  }

  lemma ReadyStays(f: Fleet, g: Fleet, ctrl: Uuid, t: nat, u: nat)
    requires Grows(f, g) && ReadyAcross(f, ctrl, t) && t <= u
    ensures ReadyAcross(g, ctrl, u)
  {
    assert Remembers(f, g, f.peers[ctrl]);
    assert f.peers[ctrl] in f.home ==> ListGrows(f, g, f.peers[ctrl]);
  }

  lemma EntryStays(f: Fleet, g: Fleet, a: Uuid, e: Entry)
    requires Grows(f, g) && EntryInv(f, a, e) && (a in g.mains ==> a in f.mains) && (a in g.home ==> a in f.home && g.home[a] == f.home[a])
    requires Running(g, a) ==> Running(f, a) || g.started[a] >= f.clock
    ensures EntryInv(g, a, e)
  {
    if e.out.Some? {
      ReadyStays(f, g, e.out.value, e.time, e.time);
    }
  }

  lemma ControllersStay(f: Fleet, op: Op)
    requires Kinds(f) && Enabled(f, op)
    ensures forall b :: b in f.started ==> Remembers(f, Apply(f, op), b)
  {
  }

  /** Most operations leave it alone who is what. */
  predicate SameControllers(f: Fleet, g: Fleet) {
    && g.home == f.home && g.mains == f.mains && g.started == f.started && f.stopped <= g.stopped && g.clock > f.clock
    && g.splicing.Keys <= f.splicing.Keys
    && forall a :: a in g.lists ==> a in f.lists || a in f.mains || a in f.home
  }

  lemma SameKinds(f: Fleet, g: Fleet)
    requires Kinds(f) && SameControllers(f, g)
    ensures Kinds(g)
  {
  }

  lemma NewServerKinds(f: Fleet, op: Op)
    requires Kinds(f) && Enabled(f, op) && op.NewServer?
    ensures Kinds(Apply(f, op))
  {
  }

  lemma SplicedKinds(f: Fleet, op: Op)
    requires Kinds(f) && Enabled(f, op) && op.SpliceBegins?
    ensures Kinds(Apply(f, op))
  {
  }

  lemma ServedKinds(f: Fleet, op: Op)
    requires Kinds(f) && Enabled(f, op) && op.Serve?
    ensures Kinds(Apply(f, op))
  {
  }

  lemma KindsStay(f: Fleet, op: Op)
    requires Kinds(f) && Enabled(f, op)
    ensures Kinds(Apply(f, op))
  {
    match op
    case NewServer(_) => NewServerKinds(f, op);
    case SpliceBegins(_, _, _) => SplicedKinds(f, op);
    case Serve(_) => ServedKinds(f, op);
    case _ => SameKinds(f, Apply(f, op));
  }

  lemma ListStays(f: Fleet, op: Op, b: Uuid)
    requires Kinds(f) && (forall e :: e in ListAt(f, b) ==> EntryInv(f, b, e)) && Enabled(f, op) && b in f.home
    ensures ListGrows(f, Apply(f, op), b)
  {
    if op.HandlerEnds? && op.at == b {
      assert EntryInv(f, b, ListAt(f, b)[op.i]);
    }
  }

  lemma Growing(f: Fleet, op: Op)
    requires Inv(f) && Enabled(f, op)
    ensures Kinds(Apply(f, op)) && Grows(f, Apply(f, op))
  {
    KindsStay(f, op);
    ControllersStay(f, op);
    forall b | b in f.started && b in f.home ensures ListGrows(f, Apply(f, op), b) {
      ListStays(f, op, b);
    }
  }

  /** A controller that could report the service just now is ready from the next moment on. */
  lemma ReportsAreReady(f: Fleet, g: Fleet, ctrl: Uuid)
    requires Inv(f) && Grows(f, g) && ctrl in f.peers && CanReport(f, f.peers[ctrl])
    ensures ReadyAcross(g, ctrl, g.clock)
  {
    var b := f.peers[ctrl];
    assert Remembers(f, g, b);
    if b in f.home {
      assert EntryInv(f, b, f.lists[b][0]);
    }
    assert ReadyAcross(f, ctrl, f.clock);
    ReadyStays(f, g, ctrl, f.clock, g.clock);
  }

  lemma LocalsBelongToMain(f: Fleet, main: Uuid, e: Entry)
    requires Inv(f) && main in f.mains && e in Locals(ListAt(f, main), f.clock)
    ensures e == Entry(None, main, f.clock)
  {
    var d :| d in ListAt(f, main) && d.out.None? && d.context == e.context;
    assert EntryInv(f, main, d);
  }

  /** `e` is the handler that the operation registers at `a`. */
  predicate Registered(f: Fleet, op: Op, a: Uuid, e: Entry)
    requires Enabled(f, op)
  {
    match op
    case RegisterService(main) => a == main && e == Entry(None, main, f.clock)
    case SpliceBegins(main, ctrl, _) => a == ctrl && e == Entry(None, main, f.clock)
    case SpliceEnds(main) =>
      a == main && f.splicing[main].Told? && e == Entry(Some(f.splicing[main].ctrl), f.splicing[main].ctrl, f.clock)
    case Replicate(ctrl) => a == ctrl && e == Entry(Some(f.home[ctrl]), f.home[ctrl], f.clock)
    case _ => false
  }

  lemma OldOrRegistered(f: Fleet, op: Op, a: Uuid, e: Entry)
    requires Inv(f) && Enabled(f, op) && e in ListAt(Apply(f, op), a)
    ensures e in ListAt(f, a) || Registered(f, op, a, e)
  {
    if op.SpliceBegins? && a == op.ctrl {
      LocalsBelongToMain(f, op.main, e);
    }
  }

  lemma RegisteredInv(f: Fleet, op: Op, a: Uuid, e: Entry)
    requires Inv(f) && Enabled(f, op) && Grows(f, Apply(f, op)) && Registered(f, op, a, e)
    ensures EntryInv(Apply(f, op), a, e)
  {
    if op.SpliceEnds? || op.Replicate? {
      ReadyStays(f, Apply(f, op), e.context, f.clock, f.clock);
    }
  }

  lemma EntryOfNext(f: Fleet, op: Op, a: Uuid, e: Entry)
    requires Inv(f) && Enabled(f, op) && Grows(f, Apply(f, op)) && e in ListAt(Apply(f, op), a)
    ensures EntryInv(Apply(f, op), a, e)
  {
    OldOrRegistered(f, op, a, e);
    if e in ListAt(f, a) {
      assert EntryInv(f, a, e);
      EntryStays(f, Apply(f, op), a, e);
    } else {
      RegisteredInv(f, op, a, e);
    }
  }

  lemma ApplyKeepsInv(f: Fleet, op: Op)
    requires Inv(f) && Enabled(f, op)
    ensures Inv(Apply(f, op))
  {
    var g := Apply(f, op);
    Growing(f, op);
    forall a, e | a in g.lists && e in g.lists[a] ensures EntryInv(g, a, e) {
      EntryOfNext(f, op, a, e);
    }
    forall m | m in g.splicing && g.splicing[m].Told? ensures ReadyAcross(g, g.splicing[m].ctrl, g.clock) {
      if m in f.splicing && f.splicing[m].Told? {
        ReadyStays(f, g, f.splicing[m].ctrl, f.clock, g.clock);
      } else {
        ReportsAreReady(f, g, f.splicing[m].ctrl);
      }
    }
    forall m | m in g.told ensures ReadyAcross(g, m, g.clock) {
      if m in f.told {
        ReadyStays(f, g, m, f.clock, g.clock);
      } else {
        ReportsAreReady(f, g, m);
      }
    }
  }

  lemma {:induction false} LifeKeepsInv(life: seq<Fleet>, ops: seq<Op>, i: nat)
    requires IsLife(life, ops) && i < |life|
    ensures Inv(life[i])
  {
    if i > 0 {
      LifeKeepsInv(life, ops, i - 1);
      assert Next(life, ops, i - 1);
      ApplyKeepsInv(life[i - 1], ops[i - 1]);
    }
  }

  // ---------------------------------------------------------------- forwarding goes back in time

  /** A main controller counts from the start of its loop, and a spliced one from its oldest
      handler, as long as that cannot be removed. */
  function RankAt(f: Fleet, a: Uuid): nat
    requires a in f.started
  {
    if a in f.mains then f.started[a] + 1
    else if a !in f.home || f.home[a] in f.ended || ListAt(f, a) == [] then 0
    else ListAt(f, a)[0].time + 1
  }

  function RankOf(f: Fleet): map<Uuid, nat> { map a | a in f.started :: RankAt(f, a) }

  lemma ForwardingDescends(f: Fleet)
    requires Inv(f)
    ensures Descends(TableOf(f), RankOf(f))
  {
    var table, rank := TableOf(f), RankOf(f);
    forall a | a in rank && a in table && table[a].Via? ensures table[a].target in rank && rank[table[a].target] < rank[a] {
      var e := f.lists[a][0];
      assert EntryInv(f, a, e);
      assert Ready(f, table[a].target, e.time);
    }
  }

  /** At every moment of every life of the fleet, a request at any controller, main or
      spliced, comes to an end after no more controllers than have started, plus one. */
  lemma FleetNeverLoops(life: seq<Fleet>, ops: seq<Op>, i: nat, a: Uuid)
    requires IsLife(life, ops) && i < |life|
    ensures !Route(TableOf(life[i]), a, |life[i].started| + 1).StillForwarding?
  {
    var f := life[i];
    LifeKeepsInv(life, ops, i);
    ForwardingDescends(f);
    if a in f.started {
      assert RankOf(f).Keys == f.started.Keys;
      RankedRouteIsShort(TableOf(f), RankOf(f), a, |f.started| + 1);
    }
  }

  // ---------------------------------------------------------------- requests do get forwarded

  /** The operation registers a first handler for the service at `a`. */
  predicate RegistersFirst(f: Fleet, op: Op, a: Uuid) {
    ListAt(f, a) == [] &&
    match op
    case RegisterService(main) => a == main
    case SpliceBegins(main, ctrl, visible) => a == ctrl && visible && exists e :: e in ListAt(f, main) && e.out.None?
    case SpliceEnds(main) => a == main && main in f.splicing && f.splicing[main].Told?
    case Replicate(ctrl) => a == ctrl
    case _ => false
  }

  /** Nothing is removed at `a` by the operations from `i` up to `j`. */
  predicate NoneRemoved(ops: seq<Op>, i: nat, j: nat, a: Uuid)
    requires i <= j <= |ops|
  {
    forall k :: i <= k < j ==> !(ops[k].HandlerEnds? && ops[k].at == a)
  }

  lemma {:induction false} LocalsAreThere(list: seq<Entry>, time: nat)
    requires exists e :: e in list && e.out.None?
    ensures Locals(list, time) != [] && Locals(list, time)[0].out.None?
  {
    if list[0].out.Some? {
      assert list == [list[0]] + list[1..];
      LocalsAreThere(list[1..], time);
    } else {
      assert Locals(list, time)[0] in Locals(list, time);
    }
  }

  lemma ListStarts(f: Fleet, op: Op, a: Uuid)
    requires Inv(f) && Enabled(f, op) && ListAt(f, a) != [] && !(op.HandlerEnds? && op.at == a)
    ensures ListAt(Apply(f, op), a) != [] && ListAt(Apply(f, op), a)[0] == ListAt(f, a)[0]
  {
  }

  lemma {:induction false} FirstStays(life: seq<Fleet>, ops: seq<Op>, i: nat, j: nat, a: Uuid)
    requires IsLife(life, ops) && i <= j < |life| && ListAt(life[i], a) != [] && NoneRemoved(ops, i, j, a)
    ensures ListAt(life[j], a) != [] && ListAt(life[j], a)[0] == ListAt(life[i], a)[0]
  {
    if i < j {
      FirstStays(life, ops, i, j - 1, a);
      LifeKeepsInv(life, ops, j - 1);
      assert Next(life, ops, j - 1);
      ListStarts(life[j - 1], ops[j - 1], a);
    }
  }

  /** Where the handler that is registered first goes out. */
  function OutOf(f: Fleet, op: Op): Option<Uuid> {
    match op
    case SpliceEnds(main) => if main in f.splicing then Some(f.splicing[main].ctrl) else None
    case Replicate(ctrl) => if ctrl in f.home then Some(f.home[ctrl]) else None
    case _ => None
  }

  lemma FirstIsRegistered(f: Fleet, op: Op, a: Uuid)
    requires Enabled(f, op) && RegistersFirst(f, op, a)
    ensures ListAt(Apply(f, op), a) != [] && ListAt(Apply(f, op), a)[0].out == OutOf(f, op)
  {
    if op.SpliceBegins? {
      LocalsAreThere(ListAt(f, op.main), f.clock);
    }
  }

  lemma FirstLeads(f: Fleet, a: Uuid)
    requires Inv(f) && Running(f, a) && ListAt(f, a) != []
    ensures match ListAt(f, a)[0].out
      case None => a in TableOf(f) && TableOf(f)[a] == Here
      case Some(ctrl) => ctrl !in f.ended ==> ctrl in f.peers && a in TableOf(f) && TableOf(f)[a] == Via(f.peers[ctrl])
  {
    assert EntryInv(f, a, ListAt(f, a)[0]);
  }

  /** From the first registration at a controller, and as long as nothing is removed there:
      while its loop runs it handles requests itself if the handler was a local one, its own
      or one that it was given as visible, and otherwise forwards them, to the peer of the
      spliced stream from a main controller and to the peer of the main one from a spliced
      controller, if that stream lives. */
  lemma FirstRegistrationLeads(life: seq<Fleet>, ops: seq<Op>, i: nat, j: nat, a: Uuid)
    requires IsLife(life, ops) && i < j < |life| && RegistersFirst(life[i], ops[i], a) && NoneRemoved(ops, i + 1, j, a)
    requires Running(life[j], a)
    ensures match ops[i]
      case RegisterService(_) => a in TableOf(life[j]) && TableOf(life[j])[a] == Here
      case SpliceBegins(_, _, _) => a in TableOf(life[j]) && TableOf(life[j])[a] == Here
      case SpliceEnds(main) =>
        var ctrl := life[i].splicing[main].ctrl;
        ctrl !in life[j].ended ==> ctrl in life[j].peers && a in TableOf(life[j]) && TableOf(life[j])[a] == Via(life[j].peers[ctrl])
      case Replicate(ctrl) =>
        var main := if ctrl in life[i].home then life[i].home[ctrl] else "";
        main !in life[j].ended ==> main in life[j].peers && a in TableOf(life[j]) && TableOf(life[j])[a] == Via(life[j].peers[main])
      case _ => true
  {
    assert Next(life, ops, i);
    FirstIsRegistered(life[i], ops[i], a);
    FirstStays(life, ops, i + 1, j, a);
    LifeKeepsInv(life, ops, j);
    FirstLeads(life[j], a);
  }

  lemma {:induction false} EndedStays(life: seq<Fleet>, ops: seq<Op>, i: nat, j: nat)
    requires IsLife(life, ops) && i <= j < |life|
    ensures life[i].ended <= life[j].ended && life[i].stopped <= life[j].stopped
  {
    if i < j {
      EndedStays(life, ops, i, j - 1);
      assert Next(life, ops, j - 1);
    }
  }

  /** From the end of a stream's context on, the handlers that depend on it can go. */
  lemma EndedCanBeRemoved(life: seq<Fleet>, ops: seq<Op>, i: nat, j: nat, a: Uuid, k: nat)
    requires IsLife(life, ops) && i < j < |life| && k < |ListAt(life[j], a)| && ops[i] == ContextEnds(ListAt(life[j], a)[k].context)
    ensures Enabled(life[j], HandlerEnds(a, k))
    ensures |ListAt(Apply(life[j], HandlerEnds(a, k)), a)| == |ListAt(life[j], a)| - 1
    ensures multiset(ListAt(Apply(life[j], HandlerEnds(a, k)), a)) == multiset(ListAt(life[j], a)) - multiset{ListAt(life[j], a)[k]}
  {
    assert Next(life, ops, i);
    EndedStays(life, ops, i + 1, j);
    OneOut(ListAt(life[j], a), k);
  }

  /** Once its loop has ended a controller handles no request. */
  lemma StoppedHandlesNothing(life: seq<Fleet>, ops: seq<Op>, i: nat, j: nat, a: Uuid, fuel: nat)
    requires IsLife(life, ops) && i < j < |life| && ops[i] == RunEnds(a) && fuel > 0
    ensures Route(TableOf(life[j]), a, fuel) == Unknown(a)
  {
    assert Next(life, ops, i);
    EndedStays(life, ops, i + 1, j);
  }

  lemma OneOut(list: seq<Entry>, k: nat)
    requires k < |list|
    ensures multiset(list[..k] + list[k + 1..]) == multiset(list) - multiset{list[k]}
  {
    assert list == list[..k] + [list[k]] + list[k + 1..];
  }

  // ---------------------------------------------------------------- a fleet at work

  /** A life goes on by one operation. */
  lemma GoOn(life: seq<Fleet>, ops: seq<Op>, op: Op) returns (longer: seq<Fleet>, more: seq<Op>)
    requires IsLife(life, ops) && Enabled(life[|ops|], op)
    ensures IsLife(longer, more) && |more| == |ops| + 1 && longer[|more|] == Apply(life[|ops|], op) && longer[0] == life[0]
  {
    longer, more := life + [Apply(life[|ops|], op)], ops + [op];
    forall i | 0 <= i < |more| ensures Next(longer, more, i) {
      if i < |ops| {
        assert Next(life, ops, i);
      }
    }
  }

  /** A server starts that implements the service. */
  lemma Implementer(life: seq<Fleet>, ops: seq<Op>, b: Uuid) returns (longer: seq<Fleet>, more: seq<Op>)
    requires IsLife(life, ops) && Enabled(life[|ops|], NewServer(b)) && Kinds(life[|ops|])
    ensures IsLife(longer, more) && longer[0] == life[0]
    ensures var f, g := life[|ops|], longer[|more|];
      && g == f.(clock := f.clock + 3, mains := f.mains + {b}, started := f.started[b := f.clock + 2],
                 lists := f.lists[b := [Entry(None, b, f.clock + 1)]])
  {
    longer, more := GoOn(life, ops, NewServer(b));
    assert b !in life[|ops|].lists.Keys + life[|ops|].started.Keys && b !in life[|ops|].splicing;
    longer, more := GoOn(longer, more, RegisterService(b));
    assert [] + [Entry(None, b, life[|ops|].clock + 1)] == [Entry(None, b, life[|ops|].clock + 1)];
    longer, more := GoOn(longer, more, Serve(b));
  }

  /** A new server splices `ctrl`. */
  lemma NewSplice(life: seq<Fleet>, ops: seq<Op>, a: Uuid, ctrl: Uuid) returns (longer: seq<Fleet>, more: seq<Op>)
    requires IsLife(life, ops) && Enabled(life[|ops|], NewServer(a)) && Kinds(life[|ops|]) && life[|ops|].splicing == map[]
    requires ctrl != a && ctrl !in life[|ops|].mains && ctrl !in life[|ops|].home
    ensures IsLife(longer, more) && longer[0] == life[0]
    ensures var f, g := life[|ops|], longer[|more|];
      && a !in f.lists && a !in f.started && ctrl !in f.lists && ctrl !in f.started
      && g == f.(clock := f.clock + 2, mains := f.mains + {a}, home := f.home[ctrl := a], started := f.started[ctrl := f.clock + 1],
                 splicing := map[a := Asking(ctrl)], lists := f.lists[ctrl := []])
  {
    var f := life[|ops|];
    assert a !in f.lists.Keys + f.started.Keys && ctrl !in f.lists.Keys + f.started.Keys;
    longer, more := GoOn(life, ops, NewServer(a));
    longer, more := GoOn(longer, more, SpliceBegins(a, ctrl, true));
  }

  /** A server starts that has spliced `ctrl` to a server with the service. */
  lemma Splicer(life: seq<Fleet>, ops: seq<Op>, a: Uuid, ctrl: Uuid) returns (longer: seq<Fleet>, more: seq<Op>)
    requires IsLife(life, ops) && Enabled(life[|ops|], NewServer(a)) && Kinds(life[|ops|]) && life[|ops|].splicing == map[]
    requires ctrl != a && ctrl !in life[|ops|].mains && ctrl !in life[|ops|].home
    requires ctrl in life[|ops|].peers && life[|ops|].peers[ctrl] != ctrl && CanReport(life[|ops|], life[|ops|].peers[ctrl])
    ensures IsLife(longer, more) && longer[0] == life[0]
    ensures var f, g := life[|ops|], longer[|more|];
      && g == f.(clock := f.clock + 5, mains := f.mains + {a}, home := f.home[ctrl := a],
                 started := f.started[ctrl := f.clock + 1][a := f.clock + 4],
                 lists := f.lists[ctrl := []][a := [Entry(Some(ctrl), ctrl, f.clock + 3)]])
  {
    ghost var time := life[|ops|].clock + 3;
    longer, more := NewSplice(life, ops, a, ctrl);
    longer, more := GoOn(longer, more, SpliceIsTold(a));
    longer, more := GoOn(longer, more, SpliceEnds(a));
    assert [] + [Entry(Some(ctrl), ctrl, time)] == [Entry(Some(ctrl), ctrl, time)];
    assert longer[|more|].splicing == map[];
    longer, more := GoOn(longer, more, Serve(a));
  }

  /** Server `a` is connected to `d` and has spliced `s` to `b`; `b` and `d` implement the
      service.  There is a life in which requests at `a` reach `b`, and those that come in
      over `s` reach `d`. */
  lemma FleetAtWork(a: Uuid, s: Uuid, b: Uuid, d: Uuid) returns (life: seq<Fleet>, ops: seq<Op>)
    requires a != s && a != b && a != d && s != b && s != d && b != d
    ensures IsLife(life, ops) && life[0].peers == map[s := b, b := s, a := d, d := a]
    ensures Route(TableOf(life[|ops|]), a, 2) == Served(b) && Route(TableOf(life[|ops|]), s, 2) == Served(d)
  {
    life, ops := Implementers(map[s := b, b := s, a := d, d := a], b, d);
    life, ops := Splicer(life, ops, a, s);
    life, ops := GoOn(life, ops, ServeIsTold(a));
    life, ops := GoOn(life, ops, Replicate(s));
    AtWork(life[|ops|], a, s, b, d);
  }

  lemma Implementers(peers: map<Uuid, Uuid>, b: Uuid, d: Uuid) returns (life: seq<Fleet>, ops: seq<Op>)
    requires b != d
    ensures IsLife(life, ops) && life[0].peers == peers
    ensures life[|ops|] == Fleet(6, peers, {b, d}, map[], map[b := 2, d := 5], {}, {},
                                 map[b := [Entry(None, b, 1)], d := [Entry(None, d, 4)]], map[], {})
  {
    life, ops := [Fleet(0, peers, {}, map[], map[], {}, {}, map[], map[], {})], [];
    life, ops := Implementer(life, ops, b);
    life, ops := Implementer(life, ops, d);
  }

  lemma AtWork(f: Fleet, a: Uuid, s: Uuid, b: Uuid, d: Uuid)
    requires a != s && a != b && a != d && s != b && s != d && b != d
    requires f.peers == map[s := b, b := s, a := d, d := a] && f.started.Keys == {a, s, b, d} && f.stopped == {} && f.ended == {}
    requires f.lists.Keys == {a, s, b, d} && |f.lists[a]| == |f.lists[s]| == |f.lists[b]| == |f.lists[d]| == 1
    requires f.lists[a][0].out == Some(s) && f.lists[s][0].out == Some(a) && f.lists[b][0].out.None? && f.lists[d][0].out.None?
    ensures Route(TableOf(f), a, 2) == Served(b) && Route(TableOf(f), s, 2) == Served(d)
  {
    var table := TableOf(f);
    assert table[a] == Via(b) && table[s] == Via(d) && table[b] == Here && table[d] == Here;
    assert Route(table, b, 1) == Served(b) && Route(table, d, 1) == Served(d);
  }
}
