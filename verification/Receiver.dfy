/** The receive wrapper between a stream and Run: a goroutine that reads the stream into
    a buffered channel, and a second channel by which a failing sender kicks Run out of
    its loop. */
module Receiver {
  import opened Messages

  const CAPACITY: nat := 256

  /** What Recv on the stream returns. */
  datatype Payload = Arrived(rpc: RPC) | Ended(err: Option<Failure>)   // None is a clean EOF

  datatype Goroutine = Reading | Holding(payload: Payload) | Returned

  datatype Exit = NotYet | ByStream(err: Option<Failure>) | ByKick(reason: Failure)

  datatype State = State(
    delivered: seq<RPC>,          // (history) everything the stream has handed out
    reader: Goroutine,
    channel: seq<Payload>,
    kickSent: bool,               // kickOnce
    kick: seq<Failure>,           // channel of capacity one
    kickAcked: nat,               // how often it has been closed
    processed: seq<RPC>,
    exit: Exit)

  datatype Step =
    | StreamRecv(payload: Payload)   // stream.Recv returns
    | Push                           // w.c <- payload
    | RunRecv                        // Run's Recv takes from the channel
    | RunKicked                      // Run's Recv takes the kick
    | Kick(err: Failure)             // any goroutine whose send failed

  function Init(): State { State([], Reading, [], false, [], 0, [], NotYet) }

  predicate Enabled(s: State, step: Step) {
    match step
    case StreamRecv(_) => s.reader.Reading?
    case Push => s.reader.Holding? && |s.channel| < CAPACITY
    case RunRecv => s.exit.NotYet? && s.channel != []
    case RunKicked => s.exit.NotYet? && s.kick != []
    case Kick(_) => s.kickSent || |s.kick| < 1
  }

  function Apply(s: State, step: Step): State
    requires Enabled(s, step)
  {
    match step
    case StreamRecv(p) =>
      s.(reader := Holding(p),
         delivered := if p.Arrived? then s.delivered + [p.rpc] else s.delivered)
    case Push =>
      s.(channel := s.channel + [s.reader.payload], reader := if s.reader.payload.Ended? then Returned else Reading)
    case RunRecv =>
      (match s.channel[0]
       case Arrived(rpc) => s.(channel := s.channel[1..], processed := s.processed + [rpc])
       case Ended(err) => s.(channel := s.channel[1..], exit := ByStream(err)))
    case RunKicked =>
      s.(kick := s.kick[1..], kickAcked := s.kickAcked + 1, exit := ByKick(s.kick[0]))
    case Kick(err) =>
      if s.kickSent then s else s.(kickSent := true, kick := s.kick + [err])
  }

  /** The messages among payloads. */
  function Arrivals(ps: seq<Payload>): seq<RPC> {
    if ps == [] then []
    else Arrivals(ps[..|ps| - 1]) + if ps[|ps| - 1].Arrived? then [ps[|ps| - 1].rpc] else []
  }

  function Held(s: State): seq<Payload> {
    if s.reader.Holding? then [s.reader.payload] else []
  }

  predicate Inv(s: State) {
    && s.processed + Arrivals(s.channel + Held(s)) == s.delivered
    && (forall i :: 0 <= i < |s.channel| && s.channel[i].Ended? ==> i == |s.channel| - 1 && s.reader.Returned?)
    && (s.exit.ByStream? ==> s.channel == [] && s.reader.Returned?)
    && |s.channel| <= CAPACITY
    && (if s.exit.ByKick? then s.kickSent && s.kick == [] && s.kickAcked == 1
        else s.kickAcked == 0 && |s.kick| == if s.kickSent then 1 else 0)
  }

  lemma {:induction false} ArrivalsSplit(ps: seq<Payload>, qs: seq<Payload>)
    ensures Arrivals(ps + qs) == Arrivals(ps) + Arrivals(qs)
  {
    if qs == [] {
      assert ps + qs == ps;
    } else {
      var k := |qs| - 1;
      assert (ps + qs)[..|ps + qs| - 1] == ps + qs[..k];
      ArrivalsSplit(ps, qs[..k]);
    }
  }

  lemma StreamRecvKeepsInv(s: State, p: Payload)
    requires Inv(s) && s.reader.Reading?
    ensures Inv(Apply(s, StreamRecv(p)))
  {
    OneMoreArrival(s.processed, s.channel, s.delivered, p);
  }

  lemma OneMoreArrival(processed: seq<RPC>, channel: seq<Payload>, delivered: seq<RPC>, p: Payload)
    requires processed + Arrivals(channel + []) == delivered
    ensures processed + Arrivals(channel + [p]) == if p.Arrived? then delivered + [p.rpc] else delivered
  {
    assert channel + [] == channel;
    assert (channel + [p])[..|channel|] == channel;
  }

  lemma PushKeepsInv(s: State)
    requires Inv(s) && Enabled(s, Push)
    ensures Inv(Apply(s, Push))
  {
    assert Apply(s, Push).channel + [] == s.channel + Held(s);
  }

  lemma RunRecvKeepsInv(s: State)
    requires Inv(s) && Enabled(s, RunRecv)
    ensures Inv(Apply(s, RunRecv))
  {
    var t := Apply(s, RunRecv);
    assert s.channel + Held(s) == [s.channel[0]] + (t.channel + Held(t));
    OneLessArrival(s.processed, s.channel[0], t.channel + Held(t), s.delivered);
  }

  lemma OneLessArrival(processed: seq<RPC>, head: Payload, rest: seq<Payload>, delivered: seq<RPC>)
    requires processed + Arrivals([head] + rest) == delivered
    ensures (if head.Arrived? then processed + [head.rpc] else processed) + Arrivals(rest) == delivered
  {
    ArrivalsSplit([head], rest);
    assert [head][..0] == [];
    assert Arrivals([head]) == if head.Arrived? then [head.rpc] else [];
  }

  lemma StepKeepsInv(s: State, step: Step)
    requires Inv(s) && Enabled(s, step)
    ensures Inv(Apply(s, step))
  {
    match step
    case StreamRecv(p) => StreamRecvKeepsInv(s, p);
    case Push => PushKeepsInv(s);
    case RunRecv => RunRecvKeepsInv(s);
    case RunKicked =>
    case Kick(_) =>
  }

  // ---------------------------------------------------------------- every run

  ghost predicate IsRun(run: seq<State>, steps: seq<Step>) {
    |run| == |steps| + 1 && run[0] == Init() && forall k :: 0 <= k < |steps| ==> Leads(run, steps, k)
  }

  predicate Leads(run: seq<State>, steps: seq<Step>, k: nat)
    requires |run| == |steps| + 1 && k < |steps|
  {
    Enabled(run[k], steps[k]) && run[k + 1] == Apply(run[k], steps[k])
  }

  lemma {:induction false} RunKeepsInv(run: seq<State>, steps: seq<Step>, k: nat)
    requires IsRun(run, steps) && k < |run|
    ensures Inv(run[k])
  {
    if k > 0 {
      RunKeepsInv(run, steps, k - 1);
      assert Leads(run, steps, k - 1);
      StepKeepsInv(run[k - 1], steps[k - 1]);
    }
  }

  /** The messages that the stream returned in the first `k` steps. */
  function Handed(steps: seq<Step>, k: nat): seq<RPC>
    requires k <= |steps|
  {
    if k == 0 then []
    else
      match steps[k - 1]
      case StreamRecv(Arrived(rpc)) => Handed(steps, k - 1) + [rpc]
      case _ => Handed(steps, k - 1)
  }

  lemma {:induction false} DeliveredIsHanded(run: seq<State>, steps: seq<Step>, k: nat)
    requires IsRun(run, steps) && k < |run|
    ensures run[k].delivered == Handed(steps, k)
  {
    if k > 0 {
      DeliveredIsHanded(run, steps, k - 1);
      assert Leads(run, steps, k - 1);
    }
  }

  /** The stream returned `err` in one of the first `k` steps. */
  predicate StreamEnded(steps: seq<Step>, k: nat, err: Option<Failure>)
    requires k <= |steps|
  {
    exists j :: 0 <= j < k && steps[j] == StreamRecv(Ended(err))
  }

  /** Errors that are on their way to Run, or have reached it, come from the stream. */
  predicate EndsAreReal(s: State, steps: seq<Step>, k: nat)
    requires k <= |steps|
  {
    && (forall i :: 0 <= i < |s.channel| && s.channel[i].Ended? ==> StreamEnded(steps, k, s.channel[i].err))
    && (s.reader.Holding? && s.reader.payload.Ended? ==> StreamEnded(steps, k, s.reader.payload.err))
    && (s.exit.ByStream? ==> StreamEnded(steps, k, s.exit.err))
  }

  lemma StepEndsAreReal(s: State, steps: seq<Step>, k: nat)
    requires k < |steps| && Enabled(s, steps[k]) && EndsAreReal(s, steps, k)
    ensures EndsAreReal(Apply(s, steps[k]), steps, k + 1)
  {
    assert forall err :: StreamEnded(steps, k, err) ==> StreamEnded(steps, k + 1, err);
    if steps[k].StreamRecv? && steps[k].payload.Ended? {
      assert StreamEnded(steps, k + 1, steps[k].payload.err);
    }
  }

  lemma {:induction false} RunEndsAreReal(run: seq<State>, steps: seq<Step>, k: nat)
    requires IsRun(run, steps) && k < |run|
    ensures EndsAreReal(run[k], steps, k)
  {
    if k > 0 {
      RunEndsAreReal(run, steps, k - 1);
      assert Leads(run, steps, k - 1);
      StepEndsAreReal(run[k - 1], steps, k - 1);
    }
  }

  /** The error of the first of the goroutines that kicked. */
  function FirstKick(steps: seq<Step>, k: nat): Option<Failure>
    requires k <= |steps|
  {
    if k == 0 then None
    else if FirstKick(steps, k - 1).Some? then FirstKick(steps, k - 1)
    else if steps[k - 1].Kick? then Some(steps[k - 1].err)
    else None
  }

  predicate KickIsFirst(s: State, first: Option<Failure>) {
    && (s.kickSent <==> first.Some?)
    && (forall i :: 0 <= i < |s.kick| ==> first == Some(s.kick[i]))
    && (s.exit.ByKick? ==> first == Some(s.exit.reason))
  }

  lemma {:induction false} RunKickIsFirst(run: seq<State>, steps: seq<Step>, k: nat)
    requires IsRun(run, steps) && k < |run|
    ensures KickIsFirst(run[k], FirstKick(steps, k))
  {
    if k > 0 {
      RunKickIsFirst(run, steps, k - 1);
      RunKeepsInv(run, steps, k - 1);
      assert Leads(run, steps, k - 1);
    }
  }

  /** Run processes a prefix of what the stream returned, in order.  If it leaves its loop by
      the stream's error, it has processed all of it, and that is an error the stream
      returned; if it was kicked out, it was by the first who kicked. */
  lemma ProcessedInOrder(run: seq<State>, steps: seq<Step>, k: nat)
    requires IsRun(run, steps) && k < |run|
    ensures run[k].processed <= Handed(steps, k)
    ensures run[k].exit.ByStream? ==> run[k].processed == Handed(steps, k) && StreamEnded(steps, k, run[k].exit.err)
    ensures run[k].exit.ByKick? ==> FirstKick(steps, k) == Some(run[k].exit.reason)
  {
    RunKeepsInv(run, steps, k);
    DeliveredIsHanded(run, steps, k);
    RunEndsAreReal(run, steps, k);
    RunKickIsFirst(run, steps, k);
  }

  /** However many senders fail, a kick never blocks, it reaches Run at most once, and
      the acknowledgement is closed at most once. */
  lemma KickNeverBlocks(run: seq<State>, steps: seq<Step>, k: nat, err: Failure)
    requires IsRun(run, steps) && k < |run|
    ensures Enabled(run[k], Kick(err))
    ensures run[k].kickAcked + |run[k].kick| <= 1
  {
    RunKeepsInv(run, steps, k);
  }

  /** Run is never stuck: it can always take what is there, and an acknowledged kick
      means that it has left the loop. */
  lemma KickEndsTheLoop(run: seq<State>, steps: seq<Step>, k: nat)
    requires IsRun(run, steps) && k < |run|
    ensures FirstKick(steps, k).Some? && run[k].exit.NotYet? ==> Enabled(run[k], RunKicked)
    ensures run[k].kickAcked == 1 <==> run[k].exit.ByKick?
  {
    RunKeepsInv(run, steps, k);
    RunKickIsFirst(run, steps, k);
  }

  /** As long as Run has not left its loop and something that the stream returned is still
      to be processed, Run can take a message or the reader can push one. */
  lemma MessagesMoveOn(run: seq<State>, steps: seq<Step>, k: nat)
    requires IsRun(run, steps) && k < |run| && run[k].exit.NotYet?
    ensures run[k].processed != Handed(steps, k) ==> Enabled(run[k], RunRecv) || Enabled(run[k], Push)
  {
    RunKeepsInv(run, steps, k);
    DeliveredIsHanded(run, steps, k);
  }
}
