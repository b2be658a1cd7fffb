/** The server side of a streaming call as its handler sees it: headers are collected,
    and travel with the first message that is written. */
module StreamWrapper {
  import opened Messages

  /** metadata.Join of possibly nil metadata with new values. */
  function Join(a: Option<Metadata>, b: Metadata): Metadata {
    match a
    case None => b
    case Some(m) =>
      map k | k in m.Keys + b.Keys ::
        (if k in m then m[k] else []) + (if k in b then b[k] else [])
  }

  datatype Result = Accepted | Invalid | IllegalHeaderWrite | ConnClosing | NotMarshalled

  /** The state of a wrapper; `out` is what has been written to its channel. */
  datatype State = State(headers: Option<Metadata>, trailers: Option<Metadata>, wroteHeaders: bool, closed: bool, out: seq<RPC>)

  /** `valid` is what validateMetadata says of the metadata, and `payload` is None if the
      message cannot be marshalled.  Once the wrapper is closed a write may go through or be
      refused, as select pleases; `refused` says which. */
  datatype Op =
    | SetHeader(md: Metadata, valid: bool)
    | SendHeader(md: Metadata, valid: bool, refused: bool)
    | SendMsg(payload: Option<Bytes>, refused: bool)
    | SetTrailer(md: Metadata)
    | Close

  function SetHeaderFn(s: State, md: Metadata, valid: bool): (State, Result) {
    if |md| == 0 then (s, Accepted)
    else if !valid then (s, Invalid)
    else (s.(headers := Some(Join(s.headers, md))), Accepted)
  }

  function SendHeaderFn(s: State, md: Metadata, valid: bool, refused: bool): (State, Result) {
    var (t, r) := SetHeaderFn(s, md, valid);
    if !r.Accepted? then (t, r)
    else if t.wroteHeaders then (t, IllegalHeaderWrite)
    else if t.closed && refused then (t.(wroteHeaders := true), ConnClosing)
    else
      (t.(wroteHeaders := true, headers := None,
          out := t.out + [RPC(0, "", "", StreamMsg(ServerStreamMessage(None, [])), WireMD(t.headers))]), Accepted)
  }

  function SendMsgFn(s: State, payload: Option<Bytes>, refused: bool): (State, Result) {
    if payload.None? then (s, NotMarshalled)
    else
      var m := RPC(0, "", "", StreamMsg(ServerStreamMessage(None, payload.value)), if s.wroteHeaders then None else WireMD(s.headers));
      var t := if s.wroteHeaders then s else s.(wroteHeaders := true, headers := None);
      if t.closed && refused then (t, ConnClosing) else (t.(out := t.out + [m]), Accepted)
  }

  function SetTrailerFn(s: State, md: Metadata): State {
    if |md| == 0 then s else s.(trailers := Some(Join(s.trailers, md)))
  }

  function Step(s: State, op: Op): State {
    match op
    case SetHeader(md, valid) => SetHeaderFn(s, md, valid).0
    case SendHeader(md, valid, refused) => SendHeaderFn(s, md, valid, refused).0
    case SendMsg(payload, refused) => SendMsgFn(s, payload, refused).0
    case SetTrailer(md) => SetTrailerFn(s, md)
    case Close => s.(closed := true)
  }

  const START := State(None, None, false, false, [])

  class LocalServerStreamWrapper {
    var headers: Option<Metadata>
    var trailers: Option<Metadata>
    var wroteHeaders: bool
    var closed: bool
    var out: seq<RPC>

    function Value(): State reads this { State(headers, trailers, wroteHeaders, closed, out) }

    constructor ()
      ensures Value() == START
    {
      headers, trailers, wroteHeaders, closed, out := None, None, false, false, [];
    }

    method SetHeader(md: Metadata, valid: bool) returns (r: Result)
      modifies this
      ensures (Value(), r) == SetHeaderFn(old(Value()), md, valid)
    {
      if |md| == 0 {
        return Accepted;
      }
      if !valid {
        return Invalid;
      }
      headers := Some(Join(headers, md));
      r := Accepted;
    }

    method SendHeader(md: Metadata, valid: bool, refused: bool) returns (r: Result)
      modifies this
      ensures (Value(), r) == SendHeaderFn(old(Value()), md, valid, refused)
    {
      r := SetHeader(md, valid);
      if r != Accepted {
        return;
      }
      if wroteHeaders {
        return IllegalHeaderWrite;
      }
      wroteHeaders := true;
      if closed && refused {
        return ConnClosing;
      }
      out := out + [RPC(0, "", "", StreamMsg(ServerStreamMessage(None, [])), WireMD(headers))];
      headers := None;
    }

    method SendMsg(payload: Option<Bytes>, refused: bool) returns (r: Result)
      modifies this
      ensures (Value(), r) == SendMsgFn(old(Value()), payload, refused)
    {
      if payload.None? {
        return NotMarshalled;
      }
      var m := RPC(0, "", "", StreamMsg(ServerStreamMessage(None, payload.value)), None);
      if !wroteHeaders {
        wroteHeaders := true;
        m := m.(metadata := WireMD(headers));
        headers := None;
      }
      if closed && refused {
        return ConnClosing;
      }
      out := out + [m];
      r := Accepted;
    }

    method SetTrailer(md: Metadata)
      modifies this
      ensures Value() == SetTrailerFn(old(Value()), md)
    {
      if |md| == 0 {
        return;
      }
      trailers := Some(Join(trailers, md));
    }
  }

  // ---------------------------------------------------------------- every sequence of calls

  /** `run` is what a new wrapper goes through under a sequence of calls. */
  ghost predicate IsRun(run: seq<State>, ops: seq<Op>) {
    && |run| == |ops| + 1 && run[0] == START
    && forall i :: 0 <= i < |ops| ==> Follows(run, ops, i)
  }

  predicate Follows(run: seq<State>, ops: seq<Op>, i: nat)
    requires |run| == |ops| + 1 && i < |ops|
  {
    run[i + 1] == Step(run[i], ops[i])
  }

  /** The operation sets out to write a message; before any has, it is to carry the headers. */
  predicate Writes(op: Op) {
    (op.SendMsg? && op.payload.Some?) || (op.SendHeader? && (|op.md| == 0 || op.valid))
  }

  /** One of the first `k` operations is Close. */
  predicate ClosedBefore(ops: seq<Op>, k: nat)
    requires k <= |ops|
  {
    k > 0 && (ops[k - 1].Close? || ClosedBefore(ops, k - 1))
  }

  /** The wrapper was closed before operation `i`, and the write was refused. */
  predicate Refused(ops: seq<Op>, i: nat)
    requires i < |ops|
  {
    Writes(ops[i]) && ops[i].refused && ClosedBefore(ops, i)
  }

  lemma OnlyCloseCloses(run: seq<State>, ops: seq<Op>, k: nat)
    requires IsRun(run, ops) && k < |ops|
    ensures run[k + 1].closed <==> run[k].closed || ops[k].Close?
  {
    assert Follows(run, ops, k);
  }

  lemma {:induction false} ClosedByClose(run: seq<State>, ops: seq<Op>, k: nat)
    requires IsRun(run, ops) && k <= |ops|
    ensures run[k].closed <==> ClosedBefore(ops, k)
  {
    if k > 0 {
      ClosedByClose(run, ops, k - 1);
      OnlyCloseCloses(run, ops, k - 1);
    }
  }

  datatype Part = Headers | Trailers

  /** The metadata an operation adds to the headers or to the trailers. */
  function Adds(op: Op, part: Part): Metadata {
    match op
    case SetHeader(md, valid) => if valid && part.Headers? then md else map[]
    case SendHeader(md, valid, _) => if valid && part.Headers? then md else map[]
    case SetTrailer(md) => if part.Trailers? then md else map[]
    case _ => map[]
  }

  /** The values given for key `key` by the first `k` operations, in order. */
  function ValuesFor(ops: seq<Op>, k: nat, key: string, part: Part): seq<string>
    requires k <= |ops|
  {
    if k == 0 then []
    else
      var before := ValuesFor(ops, k - 1, key, part);
      if key in Adds(ops[k - 1], part) then before + Adds(ops[k - 1], part)[key] else before
  }

  /** Some of the first `k` operations gave a value for `key`. */
  predicate Mentioned(ops: seq<Op>, k: nat, key: string, part: Part)
    requires k <= |ops|
  {
    exists i :: 0 <= i < k && key in Adds(ops[i], part)
  }

  predicate CollectsKey(headers: Option<Metadata>, ops: seq<Op>, k: nat, key: string, part: Part)
    requires k <= |ops|
  {
    if headers.Some? && key in headers.value
    then Mentioned(ops, k, key, part) && headers.value[key] == ValuesFor(ops, k, key, part)
    else !Mentioned(ops, k, key, part)
  }

  /** `headers` holds what the first `k` operations gave, key by key. */
  ghost predicate Collects(headers: Option<Metadata>, ops: seq<Op>, k: nat, part: Part)
    requires k <= |ops|
  {
    forall key :: CollectsKey(headers, ops, k, key, part)
  }

  predicate NoWrite(ops: seq<Op>, k: nat)
    requires k <= |ops|
  {
    forall i :: 0 <= i < k ==> !Writes(ops[i])
  }

  lemma MentionedStep(ops: seq<Op>, k: nat, key: string, part: Part)
    requires k < |ops|
    ensures Mentioned(ops, k + 1, key, part) <==> Mentioned(ops, k, key, part) || key in Adds(ops[k], part)
  {
  }

  lemma JoinCollectsKey(headers: Option<Metadata>, ops: seq<Op>, k: nat, key: string, part: Part)
    requires k < |ops| && CollectsKey(headers, ops, k, key, part)
    ensures CollectsKey(Some(Join(headers, Adds(ops[k], part))), ops, k + 1, key, part)
    ensures key !in Adds(ops[k], part) ==> CollectsKey(headers, ops, k + 1, key, part)
  {
    MentionedStep(ops, k, key, part);
    if !Mentioned(ops, k, key, part) {
      UnmentionedIsEmpty(ops, k, key, part);
    }
  }

  lemma JoinCollects(headers: Option<Metadata>, ops: seq<Op>, k: nat, part: Part)
    requires k < |ops| && Collects(headers, ops, k, part)
    ensures Collects(Some(Join(headers, Adds(ops[k], part))), ops, k + 1, part)
  {
    var joined, next := Some(Join(headers, Adds(ops[k], part))), k + 1;
    forall key ensures CollectsKey(joined, ops, next, key, part) {
      JoinCollectsKey(headers, ops, k, key, part);
    }
  }

  lemma NothingCollects(headers: Option<Metadata>, ops: seq<Op>, k: nat, part: Part)
    requires k < |ops| && Collects(headers, ops, k, part) && |Adds(ops[k], part)| == 0
    ensures Collects(headers, ops, k + 1, part)
  {
    assert |Adds(ops[k], part).Keys| == 0;
    var next := k + 1;
    forall key ensures CollectsKey(headers, ops, next, key, part) {
      JoinCollectsKey(headers, ops, k, key, part);
    }
  }

  /** Headers or trailers once an operation has added its metadata, and before it writes. */
  function Gathered(mds: Option<Metadata>, op: Op, part: Part): Option<Metadata> {
    if |Adds(op, part)| == 0 then mds else Some(Join(mds, Adds(op, part)))
  }

  lemma GatheredIsComplete(mds: Option<Metadata>, ops: seq<Op>, k: nat, part: Part)
    requires k < |ops| && Collects(mds, ops, k, part)
    ensures Collects(Gathered(mds, ops[k], part), ops, k + 1, part)
  {
    if |Adds(ops[k], part)| == 0 {
      NothingCollects(mds, ops, k, part);
    } else {
      JoinCollects(mds, ops, k, part);
    }
  }

  lemma {:induction false} UnmentionedIsEmpty(ops: seq<Op>, k: nat, key: string, part: Part)
    requires k <= |ops| && !Mentioned(ops, k, key, part)
    ensures ValuesFor(ops, k, key, part) == []
  {
    if k > 0 {
      MentionedStep(ops, k - 1, key, part);
      UnmentionedIsEmpty(ops, k - 1, key, part);
    }
  }

  /** An operation that does not write gathers. */
  lemma StepGathers(s: State, op: Op)
    requires !Writes(op)
    ensures var t := Step(s, op);
      t.wroteHeaders == s.wroteHeaders && t.out == s.out && t.headers == Gathered(s.headers, op, Headers)
  {
  }

  /** The first one to write gathers before. */
  lemma StepWrites(s: State, op: Op)
    requires Writes(op) && !s.wroteHeaders
    ensures var t := Step(s, op);
      && t.wroteHeaders && |t.out| == |s.out| + (if s.closed && op.refused then 0 else 1) && s.out <= t.out
      && (t.out != s.out ==> t.out[|s.out|].metadata == WireMD(Gathered(s.headers, op, Headers)))
  {
  }

  /** Later ones write without metadata. */
  lemma StepWritesOn(s: State, op: Op)
    requires s.wroteHeaders
    ensures var t := Step(s, op);
      && t.wroteHeaders && |s.out| <= |t.out| <= |s.out| + 1 && s.out <= t.out
      && (t.out != s.out ==> t.out[|s.out|].metadata.None?)
  {
  }

  /** Nothing has been written and the headers are complete. */
  ghost predicate Quiet(s: State, ops: seq<Op>, k: nat)
    requires k <= |ops|
  {
    !s.wroteHeaders && s.out == [] && Collects(s.headers, ops, k, Headers)
  }

  lemma StaysQuiet(run: seq<State>, ops: seq<Op>, k: nat)
    requires IsRun(run, ops) && k < |ops| && !Writes(ops[k]) && Quiet(run[k], ops, k)
    ensures Quiet(run[k + 1], ops, k + 1)
  {
    assert Follows(run, ops, k);
    StepGathers(run[k], ops[k]);
    GatheredIsComplete(run[k].headers, ops, k, Headers);
  }

  /** Until the first write nothing is out and the headers are collected. */
  lemma {:induction false} BeforeFirstWrite(run: seq<State>, ops: seq<Op>, k: nat)
    requires IsRun(run, ops) && k <= |ops| && NoWrite(ops, k)
    ensures Quiet(run[k], ops, k)
  {
    if k > 0 {
      BeforeFirstWrite(run, ops, k - 1);
      StaysQuiet(run, ops, k - 1);
    }
  }

  /** Which metadata a message written by operation `i`, the first to write, carries. */
  ghost predicate CarriesHeaders(m: RPC, ops: seq<Op>, i: nat)
    requires i < |ops|
  {
    exists headers :: m.metadata == WireMD(headers) && Collects(headers, ops, i + 1, Headers)
  }

  /** Something was to be written, and went out as `first`, or was refused; nothing but
      `first` carries metadata. */
  predicate Written(s: State, first: Option<RPC>) {
    && s.wroteHeaders
    && (first.Some? ==> s.out != [] && s.out[0] == first.value)
    && forall j :: (if first.Some? then 1 else 0) <= j < |s.out| ==> s.out[j].metadata.None?
  }

  lemma FirstWrite(run: seq<State>, ops: seq<Op>, i: nat) returns (first: Option<RPC>)
    requires IsRun(run, ops) && i < |ops| && NoWrite(ops, i) && Writes(ops[i])
    ensures Written(run[i + 1], first) && (first.None? <==> Refused(ops, i))
    ensures first.Some? ==> CarriesHeaders(first.value, ops, i)
  {
    BeforeFirstWrite(run, ops, i);
    ClosedByClose(run, ops, i);
    assert Follows(run, ops, i);
    StepWrites(run[i], ops[i]);
    GatheredIsComplete(run[i].headers, ops, i, Headers);
    first := if Refused(ops, i) then None else Some(run[i + 1].out[0]);
  }

  lemma StaysWritten(run: seq<State>, ops: seq<Op>, k: nat, first: Option<RPC>)
    requires IsRun(run, ops) && k < |ops| && Written(run[k], first)
    ensures Written(run[k + 1], first)
  {
    assert Follows(run, ops, k);
    StepWritesOn(run[k], ops[k]);
  }

  lemma {:induction false} StillWritten(run: seq<State>, ops: seq<Op>, i: nat, k: nat, first: Option<RPC>)
    requires IsRun(run, ops) && i <= k <= |ops| && Written(run[i], first)
    ensures Written(run[k], first)
  {
    if i < k {
      StillWritten(run, ops, i, k - 1, first);
      StaysWritten(run, ops, k - 1, first);
    }
  }

  /** Over any sequence of calls, only the first message written can carry metadata.  It
      carries the join of all headers accepted up to and including the call that first set
      out to write: for every key, all values given for it, in order.  Only if that write
      was refused, after the wrapper was closed, are the headers lost. */
  lemma OnlyFirstMessageCarriesHeaders(run: seq<State>, ops: seq<Op>, i: nat)
    requires IsRun(run, ops) && i < |ops| && NoWrite(ops, i) && Writes(ops[i])
    ensures var out := run[|ops|].out;
      && (forall j :: 0 < j < |out| ==> out[j].metadata.None?)
      && (!Refused(ops, i) ==> out != [] && CarriesHeaders(out[0], ops, i))
      && (Refused(ops, i) ==> forall j :: 0 <= j < |out| ==> out[j].metadata.None?)
  {
    var first := FirstWrite(run, ops, i);
    StillWritten(run, ops, i + 1, |ops|, first);
  }

  lemma StepGathersTrailers(s: State, op: Op)
    ensures Step(s, op).trailers == Gathered(s.trailers, op, Trailers)
  {
  }

  /** The trailers are the join of everything passed to SetTrailer, whatever was sent in
      between: for every key, all values given for it, in order. */
  lemma {:induction false} TrailersAreJoined(run: seq<State>, ops: seq<Op>, k: nat)
    requires IsRun(run, ops) && k <= |ops|
    ensures Collects(run[k].trailers, ops, k, Trailers)
  {
    if k > 0 {
      TrailersAreJoined(run, ops, k - 1);
      assert Follows(run, ops, k - 1);
      StepGathersTrailers(run[k - 1], ops[k - 1]);
      GatheredIsComplete(run[k - 1].trailers, ops, k - 1, Trailers);
    }
  }

  // ---------------------------------------------------------------- what is written

  lemma {:induction false} WroteAfterTrying(run: seq<State>, ops: seq<Op>, k: nat)
    requires IsRun(run, ops) && k <= |ops|
    ensures run[k].wroteHeaders <==> !NoWrite(ops, k)
  {
    if k > 0 {
      WroteAfterTrying(run, ops, k - 1);
      assert Follows(run, ops, k - 1);
      OneTry(run[k - 1], ops[k - 1]);
      assert NoWrite(ops, k) <==> NoWrite(ops, k - 1) && !Writes(ops[k - 1]);
    }
  }

  lemma OneTry(s: State, op: Op)
    ensures Step(s, op).wroteHeaders <==> s.wroteHeaders || Writes(op)
  {
  }

  /** Operation `j` is to write a message: a send of something that can be marshalled, or
      the first that sends headers; and it is not refused. */
  predicate MustWrite(ops: seq<Op>, j: nat)
    requires j < |ops|
  {
    !Refused(ops, j) && Writes(ops[j]) && (ops[j].SendHeader? ==> NoWrite(ops, j))
  }

  /** The message is the payload that was sent, or the empty one that carries headers. */
  predicate Wrote(op: Op, m: RPC) {
    m.content.StreamMsg? &&
    match op
    case SendMsg(payload, _) => payload == Some(m.content.msg.response)
    case SendHeader(_, _, _) => m.content.msg.response == []
    case _ => false
  }

  lemma StepOut(s: State, op: Op)
    ensures var t := Step(s, op);
      if Writes(op) && !(s.closed && op.refused) && (op.SendHeader? ==> !s.wroteHeaders)
      then |t.out| == |s.out| + 1 && s.out <= t.out && Wrote(op, t.out[|s.out|])
      else t.out == s.out
  {
  }

  /** There is one more message if the operation is to write one, and then it is that. */
  predicate OutGrows(out: seq<RPC>, next: seq<RPC>, ops: seq<Op>, k: nat)
    requires k < |ops|
  {
    if MustWrite(ops, k) then |next| == |out| + 1 && out <= next && Wrote(ops[k], next[|out|]) else next == out
  }

  lemma OneOut(run: seq<State>, ops: seq<Op>, k: nat)
    requires IsRun(run, ops) && k < |ops|
    ensures OutGrows(run[k].out, run[k + 1].out, ops, k)
  {
    WroteAfterTrying(run, ops, k);
    ClosedByClose(run, ops, k);
    assert Follows(run, ops, k);
    StepOut(run[k], ops[k]);
  }

  /** `at` are the operations before `k` that are to write, in order. */
  predicate Picks(ops: seq<Op>, k: nat, at: seq<nat>)
    requires k <= |ops|
  {
    && (forall i :: 0 <= i < |at| ==> at[i] < k && MustWrite(ops, at[i]))
    && (forall i, j :: 0 <= i < j < |at| ==> at[i] < at[j])
    && (forall j :: 0 <= j < k && MustWrite(ops, j) ==> j in at)
  }

  predicate AllWrote(out: seq<RPC>, ops: seq<Op>, at: seq<nat>) {
    |at| == |out| && forall i :: 0 <= i < |at| ==> at[i] < |ops| && Wrote(ops[at[i]], out[i])
  }

  lemma PickMore(ops: seq<Op>, k: nat, at: seq<nat>)
    requires k < |ops| && Picks(ops, k, at)
    ensures Picks(ops, k + 1, if MustWrite(ops, k) then at + [k] else at)
  {
    if MustWrite(ops, k) {
      var more := at + [k];
      forall j | 0 <= j <= k && MustWrite(ops, j) ensures j in more {
        assert j < k ==> j in at;
        assert more[|at|] == k;
      }
    }
  }

  lemma WriteMore(out: seq<RPC>, next: seq<RPC>, ops: seq<Op>, k: nat, before: seq<nat>) returns (at: seq<nat>)
    requires k < |ops| && OutGrows(out, next, ops, k) && Picks(ops, k, before) && AllWrote(out, ops, before)
    ensures Picks(ops, k + 1, at) && AllWrote(next, ops, at)
  {
    PickMore(ops, k, before);
    at := if MustWrite(ops, k) then before + [k] else before;
  }

  /** The messages written are those of the operations that are to write, one each, in
      order, with the payloads that were sent: `at` tells which. */
  lemma {:induction false} SendsAreWritten(run: seq<State>, ops: seq<Op>, k: nat) returns (at: seq<nat>)
    requires IsRun(run, ops) && k <= |ops|
    ensures Picks(ops, k, at) && AllWrote(run[k].out, ops, at)
  {
    if k == 0 {
      at := [];
    } else {
      at := SendsAreWritten(run, ops, k - 1);
      OneOut(run, ops, k - 1);
      at := WriteMore(run[k - 1].out, run[k].out, ops, k - 1, at);
    }
  }

  /** A send reports success if and only if its message was written, and headers can be sent
      once. */
  lemma ResultsTell(run: seq<State>, ops: seq<Op>, k: nat)
    requires IsRun(run, ops) && k < |ops|
    ensures match ops[k]
      case SendMsg(payload, refused) => SendMsgFn(run[k], payload, refused).1.Accepted? <==> MustWrite(ops, k)
      case SendHeader(md, valid, refused) => SendHeaderFn(run[k], md, valid, refused).1.Accepted? <==> MustWrite(ops, k)
      case _ => true
  {
    WroteAfterTrying(run, ops, k);
    ClosedByClose(run, ops, k);
  }
}
