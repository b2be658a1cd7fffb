/** Service descriptors, service handlers, and the list of handlers a controller
    keeps for each service name. */
module Registry {
  import opened Messages

  datatype Strategy = First | Broadcast

  datatype MethodDesc = MethodDesc(name: string, clientStreaming: bool, serverStreaming: bool,
                                   outputType: string, qos: Option<Strategy>)

  datatype Descriptor = Descriptor(name: string, methods: seq<MethodDesc>, splicedClients: bool)

  type Uuid = string
  type Context = nat

  datatype TopologyFlags = TopologyFlags(local: bool, self: bool, spliced: bool)

  /** A method invoker calls a local implementation or goes out on the stream of a
      controller. */
  datatype Invoker =
    | LocalInvoker(impl: nat, flags: TopologyFlags)
    | ControllerInvoker(controller: Uuid, flags: TopologyFlags)

  datatype MethodInfo = MethodInfo(isClientStream: bool, isServerStream: bool)

  /** `id` stands for the identity of the handler object. */
  datatype Handler = Handler(id: nat, context: Context, descriptor: Descriptor,
                             invokers: map<string, Invoker>, info: map<string, MethodInfo>,
                             qos: map<string, Strategy>, flags: TopologyFlags)

  // ---------------------------------------------------------------- building a handler

  const EMPTY_TYPE := ".google.protobuf.Empty"

  /** The restriction NewDefaultServiceHandler enforces by panicking. */
  predicate Allowed(m: MethodDesc) {
    m.qos == Some(Broadcast) ==> m.outputType == EMPTY_TYPE && !m.clientStreaming && !m.serverStreaming
  }

  predicate DefinesBefore(d: Descriptor, k: nat, name: string)
    requires k <= |d.methods|
  {
    exists i :: 0 <= i < k && d.methods[i].name == name
  }

  predicate Defines(d: Descriptor, name: string) {
    DefinesBefore(d, |d.methods|, name)
  }

  function NamesUpTo(d: Descriptor, k: nat): set<string>
    requires k <= |d.methods|
  {
    set i | 0 <= i < k :: d.methods[i].name
  }

  function NamesOf(d: Descriptor): set<string> { NamesUpTo(d, |d.methods|) }

  /** The tables a handler gets from its methods; a later method of the same name
      overwrites an earlier one. */
  function InfoOf(methods: seq<MethodDesc>): map<string, MethodInfo> {
    if methods == [] then map[]
    else
      var m := methods[|methods| - 1];
      InfoOf(methods[..|methods| - 1])[m.name := MethodInfo(m.clientStreaming, m.serverStreaming)]
  }

  function QosOf(methods: seq<MethodDesc>): map<string, Strategy> {
    if methods == [] then map[]
    else
      var m, before := methods[|methods| - 1], QosOf(methods[..|methods| - 1]);
      if m.qos.Some? then before[m.name := m.qos.value] else before
  }

  /** What a handler's tables owe to its descriptor: an invoker and an info for each
      method and for nothing else, and a strategy only for a method. */
  ghost predicate Built(h: Handler) {
    && (forall m :: m in h.invokers <==> Defines(h.descriptor, m))
    && h.info.Keys == h.invokers.Keys
    && h.qos.Keys <= h.invokers.Keys
  }

  /** Each table entry repeats what the descriptor says of the method. */
  predicate Repeats(d: MethodDesc, info: map<string, MethodInfo>, qos: map<string, Strategy>) {
    && d.name in info && info[d.name] == MethodInfo(d.clientStreaming, d.serverStreaming)
    && (if d.qos.Some? then d.name in qos && qos[d.name] == d.qos.value else d.name !in qos)
  }

  /** So broadcast methods are unary and have no result. */
  lemma BroadcastsAreUnary(h: Handler, m: string)
    requires Built(h) && forall i :: 0 <= i < |h.descriptor.methods| ==> Allowed(h.descriptor.methods[i])
    requires forall i :: 0 <= i < |h.descriptor.methods| ==> Repeats(h.descriptor.methods[i], h.info, h.qos)
    requires m in h.qos && h.qos[m] == Broadcast
    ensures m in h.info && !h.info[m].isClientStream && !h.info[m].isServerStream
    ensures forall d :: d in h.descriptor.methods && d.name == m ==> d.outputType == ".google.protobuf.Empty"
  {
    assert Defines(h.descriptor, m);
  }

  predicate DistinctMethods(d: Descriptor) {
    forall i, j :: 0 <= i < j < |d.methods| ==> d.methods[i].name != d.methods[j].name
  }

  predicate AllowedUpTo(d: Descriptor, k: nat)
    requires k <= |d.methods|
  {
    forall i :: 0 <= i < k ==> Allowed(d.methods[i])
  }

  predicate AllAllowed(d: Descriptor) { AllowedUpTo(d, |d.methods|) }

  function InvokersUpTo(d: Descriptor, k: nat, invoker: Invoker): map<string, Invoker>
    requires k <= |d.methods|
  {
    map m | m in NamesUpTo(d, k) :: invoker
  }

  /** What one more method does to the tables. */
  lemma TablesGrow(d: Descriptor, k: nat, invoker: Invoker)
    requires k < |d.methods|
    ensures var m := d.methods[k];
      && AllowedUpTo(d, k + 1) == (AllowedUpTo(d, k) && Allowed(m))
      && InvokersUpTo(d, k + 1, invoker) == InvokersUpTo(d, k, invoker)[m.name := invoker]
      && InfoOf(d.methods[..k + 1]) == InfoOf(d.methods[..k])[m.name := MethodInfo(m.clientStreaming, m.serverStreaming)]
      && QosOf(d.methods[..k + 1]) == if m.qos.Some? then QosOf(d.methods[..k])[m.name := m.qos.value] else QosOf(d.methods[..k])
  {
    assert d.methods[..k + 1][..k] == d.methods[..k];
    assert NamesUpTo(d, k + 1) == NamesUpTo(d, k) + {d.methods[k].name};
  }

  /** One method that is not allowed is enough. */
  lemma NotAllAllowed(d: Descriptor, k: nat)
    requires k <= |d.methods| && !AllowedUpTo(d, k)
    ensures !AllAllowed(d)
  {
  }

  function FlagsOf(invoker: Invoker): TopologyFlags { invoker.flags }

  /** The handler NewDefaultServiceHandler builds when it does not panic. */
  function DefaultHandler(id: nat, ctx: Context, d: Descriptor, invoker: Invoker): Handler {
    Handler(id, ctx, d, InvokersUpTo(d, |d.methods|, invoker), InfoOf(d.methods), QosOf(d.methods), FlagsOf(invoker))
  }

  lemma {:induction false} TablesHaveTheMethods(d: Descriptor, k: nat)
    requires k <= |d.methods|
    ensures forall m :: m in InfoOf(d.methods[..k]) <==> DefinesBefore(d, k, m)
    ensures QosOf(d.methods[..k]).Keys <= InfoOf(d.methods[..k]).Keys
  {
    if k > 0 {
      TablesHaveTheMethods(d, k - 1);
      assert d.methods[..k][..k - 1] == d.methods[..k - 1];
    }
  }

  lemma {:induction false} TablesRepeat(d: Descriptor, k: nat, i: nat)
    requires DistinctMethods(d) && i < k <= |d.methods|
    ensures Repeats(d.methods[i], InfoOf(d.methods[..k]), QosOf(d.methods[..k]))
  {
    assert d.methods[..k][..k - 1] == d.methods[..k - 1];
    if i < k - 1 {
      TablesRepeat(d, k - 1, i);
    } else {
      TablesHaveTheMethods(d, k - 1);
    }
  }

  lemma DefaultHandlerIsBuilt(id: nat, ctx: Context, d: Descriptor, invoker: Invoker)
    ensures Built(DefaultHandler(id, ctx, d, invoker))
    ensures DistinctMethods(d) ==>
      forall i :: 0 <= i < |d.methods| ==> Repeats(d.methods[i], InfoOf(d.methods), QosOf(d.methods))
  {
    assert d.methods[..|d.methods|] == d.methods;
    TablesHaveTheMethods(d, |d.methods|);
    assert forall m :: m in NamesOf(d) <==> Defines(d, m);
    if DistinctMethods(d) {
      forall i | 0 <= i < |d.methods| ensures Repeats(d.methods[i], InfoOf(d.methods), QosOf(d.methods)) {
        TablesRepeat(d, |d.methods|, i);
      }
    }
  }

  /** The tables agree with the descriptor, the flags are those of the invoker, and all
      methods go to it. */
  ghost predicate WellMade(h: Handler, invoker: Invoker) {
    && Built(h) && h.flags == FlagsOf(invoker)
    && (forall m :: m in h.invokers ==> h.invokers[m] == invoker)
    && (DistinctMethods(h.descriptor) ==>
          forall i :: 0 <= i < |h.descriptor.methods| ==> Repeats(h.descriptor.methods[i], h.info, h.qos))
  }

  lemma DefaultHandlerIsWellMade(id: nat, ctx: Context, d: Descriptor, invoker: Invoker)
    ensures WellMade(DefaultHandler(id, ctx, d, invoker), invoker)
  {
    DefaultHandlerIsBuilt(id, ctx, d, invoker);
  }

  /** NewDefaultServiceHandler; `None` where the original panics. */
  method NewDefaultServiceHandler(id: nat, ctx: Context, descriptor: Descriptor, invoker: Invoker)
    returns (result: Option<Handler>)
    ensures result.Some? <==> AllAllowed(descriptor)
    ensures result.None? <==> exists m :: (
      m in descriptor.methods && m.qos == Some(Broadcast)
      && (m.outputType != ".google.protobuf.Empty" || m.clientStreaming || m.serverStreaming))
    ensures result.Some? ==> result.value == DefaultHandler(id, ctx, descriptor, invoker) && WellMade(result.value, invoker)
  {
    var invokers: map<string, Invoker> := map[];
    var info: map<string, MethodInfo> := map[];
    var qos: map<string, Strategy> := map[];
    for i := 0 to |descriptor.methods|
      invariant AllowedUpTo(descriptor, i)
      invariant invokers == InvokersUpTo(descriptor, i, invoker)
      invariant info == InfoOf(descriptor.methods[..i]) && qos == QosOf(descriptor.methods[..i])
    {
      var m := descriptor.methods[i];
      TablesGrow(descriptor, i, invoker);
      info := info[m.name := MethodInfo(m.clientStreaming, m.serverStreaming)];
      if m.qos.Some? {
        if m.qos.value == Broadcast {
          if m.outputType != EMPTY_TYPE {
            NotAllAllowed(descriptor, i + 1);
            return None;
          }
          if m.serverStreaming || m.clientStreaming {
            NotAllAllowed(descriptor, i + 1);
            return None;
          }
        }
        qos := qos[m.name := m.qos.value];
      }
      invokers := invokers[m.name := invoker];
    }
    assert descriptor.methods[..|descriptor.methods|] == descriptor.methods;
    DefaultHandlerIsWellMade(id, ctx, descriptor, invoker);
    result := Some(Handler(id, ctx, descriptor, invokers, info, qos, FlagsOf(invoker)));
  }

  // ---------------------------------------------------------------- the list

  /** All handlers of a list describe the same service. */
  predicate SameDescriptors(data: seq<Handler>) {
    forall i, j :: 0 <= i < |data| && 0 <= j < |data| ==> data[i].descriptor == data[j].descriptor
  }

  predicate Accepts(data: seq<Handler>, h: Handler) {
    forall i :: 0 <= i < |data| ==> data[i].descriptor == h.descriptor
  }

  /** The list without the first occurrence of `h`. */
  function Without(data: seq<Handler>, h: Handler): (rest: seq<Handler>)
    ensures forall g :: g in rest ==> g in data
    ensures h !in data ==> rest == data
  {
    if data == [] then []
    else if data[0] == h then data[1..]
    else
      assert data == [data[0]] + data[1..];
      [data[0]] + Without(data[1..], h)
  }

  lemma {:induction false} WithoutIsDeletion(data: seq<Handler>, h: Handler, i: nat)
    requires i < |data| && data[i] == h && h !in data[..i]
    ensures Without(data, h) == data[..i] + data[i + 1..]
  {
    if i > 0 {
      assert data[0] in data[..i];
      assert forall g :: g in data[1..][..i - 1] ==> g in data[..i];
      WithoutIsDeletion(data[1..], h, i - 1);
      assert data[..i] == [data[0]] + data[1..][..i - 1];
    }
  }

  /** Handlers are told apart by identity; `Expired(h)` is the function that runs when
      the context of an appended `h` ends. */
  datatype ListOp = Appended(h: Handler) | Expired(h: Handler)

  function Change(data: seq<Handler>, op: ListOp): seq<Handler> {
    match op
    case Appended(h) => if Accepts(data, h) then data + [h] else data
    case Expired(h) => Without(data, h)
  }

  /** The list after the first `k` operations. */
  function ChangedTo(data: seq<Handler>, ops: seq<ListOp>, k: nat): seq<Handler>
    requires k <= |ops|
  {
    if k == 0 then data else Change(ChangedTo(data, ops, k - 1), ops[k - 1])
  }

  function Changed(data: seq<Handler>, ops: seq<ListOp>): seq<Handler> { ChangedTo(data, ops, |ops|) }

  /** The list after the first `n` rounds of operations. */
  function Rounds(data: seq<Handler>, between: nat -> seq<ListOp>, n: nat): seq<Handler> {
    if n == 0 then data else Changed(Rounds(data, between, n - 1), between(n - 1))
  }

  lemma ChangeKeepsDescriptors(data: seq<Handler>, op: ListOp)
    requires SameDescriptors(data)
    ensures SameDescriptors(Change(data, op))
  {
    var after := Change(data, op);
    if op.Expired? {
      assert forall i :: 0 <= i < |after| ==> after[i] in data;
    }
  }

  /** A slice: the first `len` elements of a backing array that appends may replace by a
      larger one, and that deletions shift in place. */
  class ServiceHandlerList {
    var data: array<Handler>
    var len: nat

    ghost predicate Valid() reads this, data { len <= data.Length && SameDescriptors(data[..len]) }

    ghost function Contents(): seq<Handler>
      requires len <= data.Length
      reads this, data
    {
      data[..len]
    }

    constructor ()
      ensures Valid() && fresh(data) && Contents() == []
    {
      data := new Handler[0];
      len := 0;
    }

    /** `ok` is false where the original panics; the list is then unchanged. */
    method Append(h: Handler) returns (ok: bool)
      requires Valid()
      modifies this, data
      ensures Valid() && (data == old(data) || fresh(data))
      ensures ok <==> Accepts(old(Contents()), h)
      ensures Contents() == if ok then old(Contents()) + [h] else old(Contents())
    {
      for i := 0 to len
        invariant forall k :: 0 <= k < i ==> data[k].descriptor == h.descriptor
      {
        if data[i].descriptor != h.descriptor {
          assert old(Contents())[i] == data[i];
          return false;
        }
      }
      ghost var before := Contents();
      if len == data.Length {
        var items := data[..len];
        data := new Handler[2 * len + 1](i => if 0 <= i < |items| then items[i] else h);
      } else {
        data[len] := h;
      }
      len := len + 1;
      assert Contents() == before + [h];
      ok := true;
    }

    /** slices.Delete of one element: what is behind it moves up, in place. */
    method DeleteAt(i: nat)
      requires Valid() && i < len
      modifies this, data
      ensures data == old(data) && len == old(len) - 1 <= data.Length
      ensures Contents() == old(Contents())[..i] + old(Contents())[i + 1..]
    {
      ghost var was := Contents();
      for j := i + 1 to len
        invariant data == old(data) && len == old(len)
        invariant forall k :: 0 <= k < i ==> data[k] == was[k]
        invariant forall k :: i <= k < j - 1 ==> data[k] == was[k + 1]
        invariant forall k :: j - 1 <= k < len ==> data[k] == was[k]
      {
        data[j - 1] := data[j];
      }
      len := len - 1;
    }

    /** The function that runs when the context of `h` ends. */
    method Expire(h: Handler)
      requires Valid()
      modifies this, data
      ensures Valid() && data == old(data)
      ensures Contents() == Without(old(Contents()), h)
    {
      ghost var before := Contents();
      for i := 0 to len
        invariant h !in data[..i]
      {
        if data[i] == h {
          assert data[..i] == before[..i];
          WithoutIsDeletion(before, h, i);
          ChangeKeepsDescriptors(before, Expired(h));
          DeleteAt(i);
          return;
        }
        assert data[..i + 1] == data[..i] + [data[i]];
      }
    }

    method Do(op: ListOp)
      requires Valid()
      modifies this, data
      ensures Valid() && (data == old(data) || fresh(data))
      ensures Contents() == Change(old(Contents()), op)
    {
      match op
      case Appended(h) => var _ := Append(h);
      case Expired(h) => Expire(h);
    }

    /** What other goroutines do to the list, one operation after the other. */
    method Perform(ops: seq<ListOp>)
      requires Valid()
      modifies this, data
      ensures Valid() && (data == old(data) || fresh(data))
      ensures Contents() == Changed(old(Contents()), ops)
    {
      ghost var start := Contents();
      for i := 0 to |ops|
        invariant Valid() && (data == old(data) || fresh(data))
        invariant Contents() == ChangedTo(start, ops, i)
      {
        Do(ops[i]);
      }
    }

    method Len() returns (n: nat)
      requires Valid()
      ensures n == |Contents()|
    {
      n := len;
    }

    method GetFirst() returns (h: Option<Handler>)
      requires Valid()
      ensures h == FirstOf(Contents())
    {
      if len == 0 {
        return None;
      }
      h := Some(data[0]);
    }

    method Clone() returns (clone: array<Handler>)
      requires Valid()
      ensures fresh(clone) && clone[..] == Contents()
    {
      var items := data[..len];
      clone := new Handler[|items|](i requires 0 <= i < |items| => items[i]);
    }

    /** Range: the callback runs on a clone and without the lock, so before its i-th call
        other goroutines may do `between(i)` to the list, in place.  Whatever they do, the
        callback sees the handlers that were in the list at the start, each once and in
        order, until it returns false. */
    method Range(callback: Handler -> bool, between: nat -> seq<ListOp>) returns (all: bool, visited: seq<Handler>)
      requires Valid()
      modifies this, data
      ensures Valid() && (data == old(data) || fresh(data))
      ensures Contents() == Rounds(old(Contents()), between, |visited|)
      ensures all <==> AllPass(old(Contents()), callback)
      ensures all ==> visited == old(Contents())
      ensures !all ==> StopsAt(old(Contents()), visited, callback)
    {
      ghost var start := Contents();
      var clone := Clone();
      var n := clone.Length;
      visited := [];
      for i := 0 to n
        invariant Valid() && (data == old(data) || fresh(data)) && data != clone
        invariant clone[..] == start && |start| == n
        invariant visited == start[..i] && AllPass(start[..i], callback)
        invariant Contents() == Rounds(start, between, i)
      {
        Perform(between(i));
        var h := clone[i];
        assert h == clone[..][i] == start[i];
        visited := visited + [h];
        assert start[..i + 1] == start[..i] + [h];
        if !callback(h) {
          return false, visited;
        }
      }
      assert start[..n] == start;
      all := true;
    }
  }

  predicate AllPass(hs: seq<Handler>, callback: Handler -> bool) {
    forall i :: 0 <= i < |hs| ==> callback(hs[i])
  }

  /** `visited` is `hs` up to and including the first handler that the callback refuses. */
  predicate StopsAt(hs: seq<Handler>, visited: seq<Handler>, callback: Handler -> bool) {
    && 0 < |visited| <= |hs| && visited == hs[..|visited|]
    && AllPass(hs[..|visited| - 1], callback) && !callback(visited[|visited| - 1])
  }

  function FirstOf(data: seq<Handler>): Option<Handler> {
    if data == [] then None else Some(data[0])
  }

  // ---------------------------------------------------------------- every history of a list

  /** The list after the first `k` operations of its history. */
  function Replay(ops: seq<ListOp>, k: nat): seq<Handler>
    requires k <= |ops|
  {
    ChangedTo([], ops, k)
  }

  lemma {:induction false} ReplayGoesOn(ops: seq<ListOp>, more: seq<ListOp>, a: nat, k: nat)
    requires k <= |more| && a + k <= |ops| && forall i :: 0 <= i < k ==> more[i] == ops[a + i]
    ensures ChangedTo(Replay(ops, a), more, k) == Replay(ops, a + k)
  {
    if k > 0 {
      ReplayGoesOn(ops, more, a, k - 1);
    }
  }

  /** Performing the operations from `a` on takes the list from one point of its history
      to another. */
  lemma ReplaySplits(ops: seq<ListOp>, a: nat, b: nat)
    requires a <= b <= |ops|
    ensures Changed(Replay(ops, a), ops[a..b]) == Replay(ops, b)
  {
    ReplayGoesOn(ops, ops[a..b], a, b - a);
  }

  /** Operation `i` registered a handler. */
  predicate Registers(ops: seq<ListOp>, i: nat)
    requires i < |ops|
  {
    ops[i].Appended? && Accepts(Replay(ops, i), ops[i].h)
  }

  /** Which operations registered a handler. */
  function Marks(ops: seq<ListOp>): seq<bool> {
    seq(|ops|, i requires 0 <= i < |ops| => Registers(ops, i))
  }

  /** Operation `i` registered a handler, and no operation before `k` ended that. */
  predicate Live(ops: seq<ListOp>, marks: seq<bool>, i: nat, k: nat)
    requires i < k <= |ops| == |marks|
    decreases k, i
  {
    marks[i] && forall j :: i < j < k ==> !Ends(ops, marks, i, j)
  }

  /** Operation `j` is the end of a context of the handler of operation `i`, and no older
      registration of the same handler is live.  (A handler may be appended repeatedly, and
      its context then ends as often.) */
  predicate Ends(ops: seq<ListOp>, marks: seq<bool>, i: nat, j: nat)
    requires i < j < |ops| == |marks|
    decreases j, i
  {
    ops[j] == Expired(ops[i].h) && forall e :: 0 <= e < i && ops[e].h == ops[i].h ==> !Live(ops, marks, e, j)
  }

  /** After `k` operations: the live ones among the handlers registered by the first
      `i`, in order of registration. */
  function LiveHandlers(ops: seq<ListOp>, marks: seq<bool>, i: nat, k: nat): seq<Handler>
    requires i <= k <= |ops| == |marks|
  {
    if i == 0 then [] else AndPerhaps(LiveHandlers(ops, marks, i - 1, k), Live(ops, marks, i - 1, k), ops[i - 1].h)
  }

  function AndPerhaps(data: seq<Handler>, there: bool, g: Handler): seq<Handler> {
    if there then data + [g] else data
  }

  lemma {:induction false} WithoutAppend(data: seq<Handler>, g: Handler, h: Handler)
    ensures Without(data + [g], h) == if h !in data && g == h then data else Without(data, h) + [g]
  {
    if data == [] {
      assert data + [g] == [g];
    } else {
      var rest := data[1..];
      assert (data + [g])[0] == data[0] && (data + [g])[1..] == rest + [g];
      WithoutAppend(rest, g, h);
      assert h in data <==> h == data[0] || h in rest;
    }
  }

  lemma LiveStep(ops: seq<ListOp>, marks: seq<bool>, i: nat, k: nat)
    requires i < k < |ops| == |marks|
    ensures Live(ops, marks, i, k + 1) <==> Live(ops, marks, i, k) && !Ends(ops, marks, i, k)
  {
  }

  /** A handler is among the live ones exactly if one of its registrations is. */
  lemma {:induction false} LiveMembers(ops: seq<ListOp>, marks: seq<bool>, i: nat, k: nat, h: Handler)
    requires i <= k <= |ops| == |marks|
    ensures h in LiveHandlers(ops, marks, i, k) <==> exists e :: 0 <= e < i && ops[e].h == h && Live(ops, marks, e, k)
  {
    if i > 0 {
      LiveMembers(ops, marks, i - 1, k, h);
    }
  }

  /** An append leaves the handlers that are already live alone. */
  lemma {:induction false} LiveAfterAppend(ops: seq<ListOp>, marks: seq<bool>, i: nat, k: nat)
    requires i <= k < |ops| == |marks| && ops[k].Appended?
    ensures LiveHandlers(ops, marks, i, k + 1) == LiveHandlers(ops, marks, i, k)
  {
    if i > 0 {
      LiveAfterAppend(ops, marks, i - 1, k);
      LiveStep(ops, marks, i - 1, k);
    }
  }

  lemma EndsOldest(ops: seq<ListOp>, marks: seq<bool>, i: nat, k: nat)
    requires i < k < |ops| == |marks| && ops[k].Expired?
    ensures Ends(ops, marks, i, k) <==> ops[i].h == ops[k].h && ops[k].h !in LiveHandlers(ops, marks, i, k)
  {
    LiveMembers(ops, marks, i, k, ops[k].h);
  }

  /** A registration outlives the end of a context, unless it is the oldest live one of that
      handler. */
  lemma LivesOn(ops: seq<ListOp>, marks: seq<bool>, i: nat, k: nat)
    requires i < k < |ops| == |marks| && ops[k].Expired?
    ensures Live(ops, marks, i, k + 1) <==>
      Live(ops, marks, i, k) && !(ops[i].h == ops[k].h && ops[k].h !in LiveHandlers(ops, marks, i, k))
  {
    LiveStep(ops, marks, i, k);
    EndsOldest(ops, marks, i, k);
  }

  lemma {:induction false} NothingToTake(data: seq<Handler>, h: Handler)
    requires h !in data
    ensures Without(data, h) == data
  {
    if data != [] {
      NothingToTake(data[1..], h);
      assert data == [data[0]] + data[1..];
    }
  }

  /** Taking `h` from a list to which `g` may have been appended: `g` goes exactly if it is
      the oldest `h`. */
  lemma WithoutOneMore(data: seq<Handler>, there: bool, g: Handler, h: Handler)
    ensures Without(AndPerhaps(data, there, g), h) == AndPerhaps(Without(data, h), there && !(g == h && h !in data), g)
  {
    WithoutAppend(data, g, h);
    if h !in data {
      NothingToTake(data, h);
    }
  }

  /** The end of a context takes the oldest live registration of its handler from their
      midst. */
  lemma {:induction false} LiveAfterExpiry(ops: seq<ListOp>, marks: seq<bool>, i: nat, k: nat)
    requires i <= k < |ops| == |marks| && ops[k].Expired?
    ensures LiveHandlers(ops, marks, i, k + 1) == Without(LiveHandlers(ops, marks, i, k), ops[k].h)
  {
    if i > 0 {
      LiveAfterExpiry(ops, marks, i - 1, k);
      LivesOn(ops, marks, i - 1, k);
      WithoutOneMore(LiveHandlers(ops, marks, i - 1, k), Live(ops, marks, i - 1, k), ops[i - 1].h, ops[k].h);
    }
  }

  /** After any history, the list is exactly the live handlers in the order of their
      registration. */
  lemma {:induction false} ListIsLiveHandlersInOrder(ops: seq<ListOp>, k: nat)
    requires k <= |ops|
    ensures Replay(ops, k) == LiveHandlers(ops, Marks(ops), k, k)
  {
    if k > 0 {
      var marks := Marks(ops);
      ListIsLiveHandlersInOrder(ops, k - 1);
      assert marks[k - 1] == Registers(ops, k - 1);
      match ops[k - 1]
      case Appended(_) => LiveAfterAppend(ops, marks, k - 1, k - 1);
      case Expired(_) => LiveAfterExpiry(ops, marks, k - 1, k - 1);
    }
  }

  /** If no handler is appended twice, a registration lives until its context ends. */
  lemma LiveUntilContextEnds(ops: seq<ListOp>, i: nat, k: nat)
    requires i < k <= |ops| && Registers(ops, i)
    requires forall e :: 0 <= e < i && ops[e].Appended? ==> ops[e].h != ops[i].h
    ensures Live(ops, Marks(ops), i, k) <==> forall j :: i < j < k ==> ops[j] != Expired(ops[i].h)
  {
    var marks := Marks(ops);
    forall j | i < j < k ensures Ends(ops, marks, i, j) <==> ops[j] == Expired(ops[i].h) {
      assert forall e :: 0 <= e < i && ops[e].h == ops[i].h ==> !marks[e];
    }
  }

  /** They all describe the same service. */
  lemma {:induction false} ListHasOneDescriptor(ops: seq<ListOp>, k: nat)
    requires k <= |ops|
    ensures SameDescriptors(Replay(ops, k))
  {
    if k > 0 {
      ListHasOneDescriptor(ops, k - 1);
      ChangeKeepsDescriptors(Replay(ops, k - 1), ops[k - 1]);
    }
  }

  lemma {:induction false} NoneLive(ops: seq<ListOp>, marks: seq<bool>, i: nat, k: nat)
    requires i <= k <= |ops| == |marks| && forall j :: 0 <= j < i ==> !Live(ops, marks, j, k)
    ensures LiveHandlers(ops, marks, i, k) == []
  {
    if i > 0 {
      NoneLive(ops, marks, i - 1, k);
    }
  }

  lemma {:induction false} OldestIsHead(ops: seq<ListOp>, marks: seq<bool>, i: nat, n: nat, k: nat)
    requires i < n <= k <= |ops| == |marks|
    requires Live(ops, marks, i, k) && forall j :: 0 <= j < i ==> !Live(ops, marks, j, k)
    ensures LiveHandlers(ops, marks, n, k) != [] && LiveHandlers(ops, marks, n, k)[0] == ops[i].h
  {
    if n - 1 == i {
      NoneLive(ops, marks, i, k);
    } else {
      OldestIsHead(ops, marks, i, n - 1, k);
    }
  }

  /** After any history First is the oldest live handler, whatever came and went after it. */
  lemma FirstIsOldest(ops: seq<ListOp>, i: nat, k: nat)
    requires i < k <= |ops|
    requires Live(ops, Marks(ops), i, k) && forall j :: 0 <= j < i ==> !Live(ops, Marks(ops), j, k)
    ensures FirstOf(Replay(ops, k)) == Some(ops[i].h)
  {
    ListIsLiveHandlersInOrder(ops, k);
    OldestIsHead(ops, Marks(ops), i, k, k);
  }

  /** NewStreamController registers the controller's own handler for
      totem.ServerReflection first.  As long as the controller's stream lives, it
      stays first, whatever is spliced, served or removed: a discovery request that
      reaches a controller is answered by that controller. */
  lemma {:induction false} OwnReflectionStaysFirst(ops: seq<ListOp>, own: Handler, k: nat)
    requires 0 < k <= |ops| && ops[0] == Appended(own)
    requires forall j :: 0 <= j < k ==> ops[j] != Expired(own)
    ensures Replay(ops, k) != [] && Replay(ops, k)[0] == own
  {
    if k == 1 {
      assert Replay(ops, 0) == [];
    } else {
      OwnReflectionStaysFirst(ops, own, k - 1);
    }
  }
}
