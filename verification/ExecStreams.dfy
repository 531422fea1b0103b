/**
 Output streams of an execution: the native side queues chunks and then one exit, one drain
 goroutine dispatches them in order, and `Wait` returns once the exit has been dispatched.
 */
module ExecStreams {
  import opened Prelude

  type byte = x: int | 0 <= x < 256

  datatype Stream = Stdout | Stderr

  /** What the native side queues. */
  datatype Event = Chunk(stream: Stream, data: seq<byte>) | Exit(code: int)

  /** Where a stream goes: a writer, a callback, both or neither. */
  datatype Wiring = Wiring(writer: bool, callback: bool)

  datatype Sink = Sink(written: seq<byte>, calls: seq<seq<byte>>)

  const NOTHING := Sink([], [])

  function Deliver(w: Wiring, sink: Sink, data: seq<byte>): Sink {
    Sink(if w.writer then sink.written + data else sink.written,
         if w.callback then sink.calls + [data] else sink.calls)
  }

  /** What a sink holds once these events have been delivered to it; an empty chunk is not delivered. */
  function Delivered(w: Wiring, stream: Stream, events: seq<Event>): Sink {
    if events == [] then NOTHING else
      var sink, last := Delivered(w, stream, events[..|events| - 1]), events[|events| - 1];
      if last.Chunk? && last.stream == stream && last.data != [] then Deliver(w, sink, last.data) else sink
  }

  /** The bytes of one stream, in order. */
  function Bytes(stream: Stream, events: seq<Event>): seq<byte> {
    if events == [] then [] else
      var last := events[|events| - 1];
      Bytes(stream, events[..|events| - 1]) + (if last.Chunk? && last.stream == stream then last.data else [])
  }

  // ---------- the stream state ----------

  /** `executionStreamState`. */
  class ExecutionStreamState {
    const wiring: map<Stream, Wiring>
    var stdout: Sink
    var stderr: Sink
    var released: bool
    var drained: bool

    predicate Wired() { Stdout in wiring && Stderr in wiring }

    constructor (out: Wiring, err: Wiring)
      ensures wiring == map[Stdout := out, Stderr := err] && Wired()
      ensures stdout == NOTHING && stderr == NOTHING && !released && !drained
    {
      wiring := map[Stdout := out, Stderr := err];
      stdout, stderr, released, drained := NOTHING, NOTHING, false, false;
    }

    method DeliverStdout(data: seq<byte>)
      requires Wired()
      modifies this`stdout
      ensures stdout == if released then old(stdout) else Deliver(wiring[Stdout], old(stdout), data)
    {
      if released { return; }
      var w := wiring[Stdout];
      if w.callback { stdout := stdout.(calls := stdout.calls + [data]); }
      if w.writer { stdout := stdout.(written := stdout.written + data); }
    }

    method DeliverStderr(data: seq<byte>)
      requires Wired()
      modifies this`stderr
      ensures stderr == if released then old(stderr) else Deliver(wiring[Stderr], old(stderr), data)
    {
      if released { return; }
      var w := wiring[Stderr];
      if w.callback { stderr := stderr.(calls := stderr.calls + [data]); }
      if w.writer { stderr := stderr.(written := stderr.written + data); }
    }

    /** Closing a closed channel would panic. */
    method DeliverExit()
      requires !drained
      modifies this`released, this`drained
      ensures released && drained
    {
      released := true;
      drained := true;
    }

    method MarkReleased()
      modifies this`released
      ensures released
    {
      released := true;
    }

    /** The callbacks: a chunk that is not empty goes to its stream, the exit ends the streams. */
    method Dispatch(e: Event)
      requires Wired() && (e.Exit? ==> !drained)
      modifies this
      ensures released == (old(released) || e.Exit?) && drained == (old(drained) || e.Exit?)
      ensures !old(released) ==>
        && stdout == DeliverEvent(wiring[Stdout], Stdout, old(stdout), e)
        && stderr == DeliverEvent(wiring[Stderr], Stderr, old(stderr), e)
      ensures old(released) ==> stdout == old(stdout) && stderr == old(stderr)
    {
      match e {
        case Exit(_) => DeliverExit();
        case Chunk(stream, data) =>
          if data != [] {
            if stream.Stdout? { DeliverStdout(data); } else { DeliverStderr(data); }
          }
      }
    }

    /** Dispatching a whole queue in order leaves each sink with exactly what was queued for it. */
    method DispatchAll(events: seq<Event>)
      requires Wired() && !released && !drained && stdout == NOTHING && stderr == NOTHING
      requires forall i :: 0 <= i < |events| - 1 ==> !events[i].Exit?
      modifies this
      ensures stdout == Delivered(wiring[Stdout], Stdout, events) && stderr == Delivered(wiring[Stderr], Stderr, events)
      ensures drained == (|events| > 0 && events[|events| - 1].Exit?)
    {
      for n := 0 to |events|
        invariant stdout == Delivered(wiring[Stdout], Stdout, events[..n])
        invariant stderr == Delivered(wiring[Stderr], Stderr, events[..n])
        invariant released == drained == (n > 0 && events[n - 1].Exit?)
      {
        assert events[..n + 1][..n] == events[..n];
        Dispatch(events[n]);
      }
      assert events[..|events|] == events;
    }
  }

  function DeliverEvent(w: Wiring, stream: Stream, sink: Sink, e: Event): Sink {
    if e.Chunk? && e.stream == stream && e.data != [] then Deliver(w, sink, e.data) else sink
  }

  // ---------- the protocol ----------

  datatype Phase =
    | AwaitingResult
    | AwaitingDrain(code: int, failed: bool)
    | Returned(code: int, failed: bool)

  /**
   `closedAt` is how many events had been dispatched when `Execution.Close` was called, and
   `closing` tells whether the runtime is closing.
   */
  datatype State = State(
    stdout: Sink, stderr: Sink, released: bool, drained: bool,
    live: bool, panics: nat,
    queued: seq<Event>, dispatched: nat,
    closedAt: Option<nat>, closing: bool,
    waits: seq<Phase>)

  datatype Op =
    | Queue(e: Event)
    | DispatchNext
    | CloseExecution
    | CloseRuntime
    | CallWait
    | GiveResult(i: nat, code: int, failed: bool)
    | Cancel(i: nat)
    | SeeClosing(i: nat)
    | SeeDrained(i: nat)

  /** How an execution is wired, and whether it has streams at all: a recovered one does not. */
  datatype Setup = Setup(out: Wiring, err: Wiring, streams: bool)

  const START := State(NOTHING, NOTHING, false, false, true, 0, [], 0, None, false, [])

  predicate Exited(events: seq<Event>) { |events| > 0 && events[|events| - 1].Exit? }

  function Dispatched(setup: Setup, s: State): State
    requires s.dispatched < |s.queued|
  {
    var e, t := s.queued[s.dispatched], s.(dispatched := s.dispatched + 1);
    if !s.live then t.(panics := s.panics + 1)
    else if e.Exit? then
      t.(released := true, drained := true, live := false, panics := if s.drained then s.panics + 1 else s.panics)
    else if s.released then t
    else t.(stdout := DeliverEvent(setup.out, Stdout, s.stdout, e), stderr := DeliverEvent(setup.err, Stderr, s.stderr, e))
  }

  /** One step; a step that is not possible changes nothing. */
  function Step(setup: Setup, s: State, op: Op): State {
    match op
    case Queue(e) => if Exited(s.queued) then s else s.(queued := s.queued + [e])
    case DispatchNext => if s.dispatched < |s.queued| then Dispatched(setup, s) else s
    case CloseExecution =>
      s.(released := true, closedAt := if s.closedAt.Some? then s.closedAt else Some(s.dispatched))
    case CloseRuntime => s.(closing := true)
    case CallWait => s.(waits := s.waits + [if s.closedAt.Some? then Returned(0, true) else AwaitingResult])
    case GiveResult(i, code, failed) =>
      if i < |s.waits| && s.waits[i].AwaitingResult? then
        s.(waits := s.waits[i := if setup.streams then AwaitingDrain(code, failed) else Returned(code, failed)])
      else s
    case Cancel(i) => if i < |s.waits| && s.waits[i].AwaitingResult? then s.(waits := s.waits[i := Returned(0, true)]) else s
    case SeeClosing(i) =>
      if !s.closing || i >= |s.waits| then s
      else if s.waits[i].AwaitingResult? then s.(waits := s.waits[i := Returned(0, true)])
      else if s.waits[i].AwaitingDrain? then s.(waits := s.waits[i := Returned(s.waits[i].code, true)])
      else s
    case SeeDrained(i) =>
      if s.drained && i < |s.waits| && s.waits[i].AwaitingDrain? then
        s.(waits := s.waits[i := Returned(s.waits[i].code, s.waits[i].failed)])
      else s
  }

  function Run(setup: Setup, s: State, ops: seq<Op>): State
    decreases |ops|
  {
    if ops == [] then s else Run(setup, Step(setup, s, ops[0]), ops[1..])
  }

  // ---------- what every step keeps ----------

  predicate NothingAfterExit(events: seq<Event>) { forall i :: 0 <= i < |events| - 1 ==> !events[i].Exit? }

  /** The number of events that could reach the sinks. */
  function Reached(s: State): nat { if s.closedAt.Some? then s.closedAt.value else s.dispatched }

  /** Both sinks hold what the events up to there brought them. */
  predicate UpToDate(setup: Setup, s: State) {
    && Reached(s) <= s.dispatched <= |s.queued|
    && s.stdout == Delivered(setup.out, Stdout, s.queued[..Reached(s)])
    && s.stderr == Delivered(setup.err, Stderr, s.queued[..Reached(s)])
  }

  ghost predicate Inv(setup: Setup, s: State) {
    && NothingAfterExit(s.queued) && s.panics == 0 && UpToDate(setup, s)
    && (s.drained <==> s.dispatched == |s.queued| && Exited(s.queued))
    && s.live == !s.drained && s.released == (s.closedAt.Some? || s.drained)
    && (setup.streams ==> forall i :: 0 <= i < |s.waits| && s.waits[i].Returned? && !s.waits[i].failed ==> s.drained)
  }

  lemma DeliveredNext(w: Wiring, stream: Stream, events: seq<Event>, n: nat)
    requires n < |events|
    ensures Delivered(w, stream, events[..n + 1]) == DeliverEvent(w, stream, Delivered(w, stream, events[..n]), events[n])
  {
    assert events[..n + 1][..n] == events[..n];
  }

  lemma DispatchKeeps(setup: Setup, s: State)
    requires Inv(setup, s) && s.dispatched < |s.queued|
    ensures Inv(setup, Dispatched(setup, s))
  {
    DeliveredNext(setup.out, Stdout, s.queued, s.dispatched);
    DeliveredNext(setup.err, Stderr, s.queued, s.dispatched);
    hide Delivered, Deliver;
  }

  lemma QueueKeeps(setup: Setup, s: State, e: Event)
    requires Inv(setup, s) && !Exited(s.queued)
    ensures Inv(setup, s.(queued := s.queued + [e]))
  {
    hide Delivered;
    assert (s.queued + [e])[..Reached(s)] == s.queued[..Reached(s)];
  }

  /** A step that neither queues nor dispatches, and closes or wakes a waiter at most. */
  lemma WaitsKeep(setup: Setup, s: State, t: State)
    requires Inv(setup, s) && t == s.(released := t.released, closedAt := t.closedAt, closing := t.closing, waits := t.waits)
    requires t.released == (t.closedAt.Some? || t.drained) && Reached(t) == Reached(s)
    requires setup.streams ==>
      forall i :: 0 <= i < |t.waits| && t.waits[i].Returned? && !t.waits[i].failed ==> t.drained
    ensures Inv(setup, t)
  {
    hide Delivered;
  }

  lemma StepKeeps(setup: Setup, s: State, op: Op)
    requires Inv(setup, s)
    ensures Inv(setup, Step(setup, s, op))
  {
    hide Dispatched, Delivered, UpToDate;
    match op
    case Queue(e) => if !Exited(s.queued) { QueueKeeps(setup, s, e); }
    case DispatchNext => if s.dispatched < |s.queued| { DispatchKeeps(setup, s); }
    case _ => WaitsKeep(setup, s, Step(setup, s, op));
  }

  lemma {:induction false} RunKeeps(setup: Setup, s: State, ops: seq<Op>)
    requires Inv(setup, s)
    ensures Inv(setup, Run(setup, s, ops))
    decreases |ops|
  {
    hide Step, Inv;
    if ops != [] {
      StepKeeps(setup, s, ops[0]);
      RunKeeps(setup, Step(setup, s, ops[0]), ops[1..]);
    }
  }

  lemma StartIsGood(setup: Setup)
    ensures Inv(setup, START)
  {
  }

  // ---------- the results ----------

  lemma {:induction false} WriterHasBytes(w: Wiring, stream: Stream, events: seq<Event>)
    ensures w.writer ==> Delivered(w, stream, events).written == Bytes(stream, events)
  {
    if events != [] { WriterHasBytes(w, stream, events[..|events| - 1]); }
  }

  lemma BytesNext(stream: Stream, events: seq<Event>, e: Event)
    ensures Bytes(stream, events + [e])
      == Bytes(stream, events) + (if e.Chunk? && e.stream == stream then e.data else [])
  {
    assert (events + [e])[..|events|] == events;
  }

  lemma {:induction false} BytesConcat(stream: Stream, a: seq<Event>, b: seq<Event>)
    ensures Bytes(stream, a + b) == Bytes(stream, a) + Bytes(stream, b)
  {
    if b == [] {
      assert a + b == a;
    } else {
      var rest, last := b[..|b| - 1], b[|b| - 1];
      BytesConcat(stream, a, rest);
      assert b == rest + [last] && a + b == (a + rest) + [last];
      BytesNext(stream, rest, last);
      BytesNext(stream, a + rest, last);
      hide Bytes;
    }
  }

  /**
   When `Wait` returns without an error on an execution with streams, the exit is queued and
   dispatched, and each sink has got every chunk of its stream ever queued, in order, and
   nothing else, up to where the execution was closed if it was closed before the exit.
   */
  lemma WaitMeansComplete(setup: Setup, ops: seq<Op>, i: nat)
    requires var s := Run(setup, START, ops);
      setup.streams && i < |s.waits| && s.waits[i].Returned? && !s.waits[i].failed
    ensures var s := Run(setup, START, ops);
      var end := if s.closedAt.Some? then s.closedAt.value else |s.queued|;
      && Exited(s.queued) && s.drained && end <= |s.queued|
      && s.stdout == Delivered(setup.out, Stdout, s.queued[..end])
      && s.stderr == Delivered(setup.err, Stderr, s.queued[..end])
  {
    hide Step, Delivered;
    StartIsGood(setup);
    RunKeeps(setup, START, ops);
  }

  /** So a writer lacks output exactly when its stream has some behind the point of the close. */
  lemma WriterIsComplete(setup: Setup, ops: seq<Op>, i: nat)
    requires var s := Run(setup, START, ops);
      setup.streams && i < |s.waits| && s.waits[i].Returned? && !s.waits[i].failed
    ensures var s := Run(setup, START, ops);
      var end := if s.closedAt.Some? then s.closedAt.value else |s.queued|;
      && end <= |s.queued|
      && (setup.out.writer ==> (s.stdout.written == Bytes(Stdout, s.queued) <==> Bytes(Stdout, s.queued[end..]) == []))
      && (setup.err.writer ==> (s.stderr.written == Bytes(Stderr, s.queued) <==> Bytes(Stderr, s.queued[end..]) == []))
  {
    hide Run, Bytes, Delivered;
    WaitMeansComplete(setup, ops, i);
    var s := Run(setup, START, ops);
    var end := if s.closedAt.Some? then s.closedAt.value else |s.queued|;
    assert s.queued == s.queued[..end] + s.queued[end..];
    WriterHasBytes(setup.out, Stdout, s.queued[..end]);
    WriterHasBytes(setup.err, Stderr, s.queued[..end]);
    BytesConcat(Stdout, s.queued[..end], s.queued[end..]);
    BytesConcat(Stderr, s.queued[..end], s.queued[end..]);
  }

  /** At any time, closed or not, a writer has got a prefix of its stream's bytes. */
  lemma OutputIsAPrefix(setup: Setup, ops: seq<Op>)
    ensures var s := Run(setup, START, ops);
      && (setup.out.writer ==> s.stdout.written <= Bytes(Stdout, s.queued))
      && (setup.err.writer ==> s.stderr.written <= Bytes(Stderr, s.queued))
  {
    hide Step, Delivered, Bytes;
    var s := Run(setup, START, ops);
    StartIsGood(setup);
    RunKeeps(setup, START, ops);
    var n := Reached(s);
    assert s.queued == s.queued[..n] + s.queued[n..];
    WriterHasBytes(setup.out, Stdout, s.queued[..n]);
    WriterHasBytes(setup.err, Stderr, s.queued[..n]);
    BytesConcat(Stdout, s.queued[..n], s.queued[n..]);
    BytesConcat(Stderr, s.queued[..n], s.queued[n..]);
  }

  // ---------- the exit code ----------

  /** The native side's result for the `i`-th `Wait` came while that one awaited it. */
  ghost predicate ResultCame(setup: Setup, ops: seq<Op>, i: nat, code: int, failed: bool) {
    exists k :: 0 <= k < |ops| && CameAt(setup, ops, k, i, code, failed)
  }

  predicate CameAt(setup: Setup, ops: seq<Op>, k: nat, i: nat, code: int, failed: bool)
    requires k < |ops|
  {
    && ops[k] == GiveResult(i, code, failed)
    && var s := Run(setup, START, ops[..k]); i < |s.waits| && s.waits[i].AwaitingResult?
  }

  lemma {:induction false} RunNext(setup: Setup, s: State, ops: seq<Op>, op: Op)
    ensures Run(setup, s, ops + [op]) == Step(setup, Run(setup, s, ops), op)
    decreases |ops|
  {
    hide Step;
    if ops == [] {
      assert [op][1..] == [];
    } else {
      assert (ops + [op])[1..] == ops[1..] + [op];
      RunNext(setup, Step(setup, s, ops[0]), ops[1..], op);
    }
  }

  lemma CameNext(setup: Setup, ops: seq<Op>, op: Op, i: nat, code: int, failed: bool)
    ensures ResultCame(setup, ops + [op], i, code, failed) <==>
      || ResultCame(setup, ops, i, code, failed)
      || (op == GiveResult(i, code, failed)
          && var s := Run(setup, START, ops); i < |s.waits| && s.waits[i].AwaitingResult?)
  {
    hide Run;
    var more := ops + [op];
    assert more[..|ops|] == ops;
    forall k | 0 <= k < |ops| ensures CameAt(setup, more, k, i, code, failed) <==> CameAt(setup, ops, k, i, code, failed) {
      assert more[..k] == ops[..k];
    }
    assert CameAt(setup, more, |ops|, i, code, failed) <==>
      (op == GiveResult(i, code, failed) && var s := Run(setup, START, ops); i < |s.waits| && s.waits[i].AwaitingResult?);
    hide CameAt;
    if ResultCame(setup, more, i, code, failed) {
      var k :| 0 <= k < |more| && CameAt(setup, more, k, i, code, failed);
    }
    if ResultCame(setup, ops, i, code, failed) {
      var k :| 0 <= k < |ops| && CameAt(setup, ops, k, i, code, failed);
      assert CameAt(setup, more, k, i, code, failed);
    }
  }

  /** What the phase of a `Wait` says of the one result that came for it, if any. */
  predicate PhaseFits(setup: Setup, phase: Phase, closing: bool, came: Option<(int, bool)>) {
    match phase
    case AwaitingResult => came.None?
    case AwaitingDrain(code, failed) => came == Some((code, failed)) && setup.streams
    case Returned(code, failed) =>
      match came
      case None => code == 0 && failed
      case Some(r) => code == r.0 && (failed == r.1 || (failed && closing && setup.streams))
  }

  ghost predicate CameIs(setup: Setup, ops: seq<Op>, i: nat, came: Option<(int, bool)>) {
    forall code, failed :: ResultCame(setup, ops, i, code, failed) <==> came == Some((code, failed))
  }

  lemma StepFits(setup: Setup, s: State, op: Op, i: nat, came: Option<(int, bool)>) returns (now: Option<(int, bool)>)
    requires if i < |s.waits| then PhaseFits(setup, s.waits[i], s.closing, came) else came.None?
    ensures var t := Step(setup, s, op);
      if i < |t.waits| then PhaseFits(setup, t.waits[i], t.closing, now) else now.None?
    ensures forall code, failed :: now == Some((code, failed)) <==>
      came == Some((code, failed))
      || (op == GiveResult(i, code, failed) && i < |s.waits| && s.waits[i].AwaitingResult?)
  {
    hide DeliverEvent;
    now := came;
    if op.GiveResult? && op.i == i && i < |s.waits| && s.waits[i].AwaitingResult? { now := Some((op.code, op.failed)); }
  }

  lemma {:induction false} RunFits(setup: Setup, ops: seq<Op>, i: nat) returns (came: Option<(int, bool)>)
    ensures CameIs(setup, ops, i, came)
    ensures var s := Run(setup, START, ops);
      if i < |s.waits| then PhaseFits(setup, s.waits[i], s.closing, came) else came.None?
    decreases |ops|
  {
    hide Step, PhaseFits;
    came := None;
    if ops != [] {
      hide Run;
      var rest, last := ops[..|ops| - 1], ops[|ops| - 1];
      assert ops == rest + [last];
      var was := RunFits(setup, rest, i);
      came := StepFits(setup, Run(setup, START, rest), last, i, was);
      RunNext(setup, START, rest, last);
      hide ResultCame;
      forall code, failed { CameNext(setup, rest, last, i, code, failed); }
    }
  }

  /**
   A `Wait` that returned has the code and the error of the one result that came for it, except
   that a closing runtime can add an error while its output is awaited; one for which no result
   came returned no code, and an error.
   */
  lemma WaitReturnsResult(setup: Setup, ops: seq<Op>, i: nat)
    requires var s := Run(setup, START, ops); i < |s.waits| && s.waits[i].Returned?
    ensures var s := Run(setup, START, ops);
      forall code, failed :: ResultCame(setup, ops, i, code, failed) ==>
        s.waits[i].code == code && (s.waits[i].failed == failed || (s.waits[i].failed && s.closing && setup.streams))
    ensures var s := Run(setup, START, ops);
      (forall code, failed :: !ResultCame(setup, ops, i, code, failed)) ==> s.waits[i] == Returned(0, true)
    ensures var s := Run(setup, START, ops);
      !s.waits[i].failed ==> ResultCame(setup, ops, i, s.waits[i].code, false)
    ensures forall c, f, d, g :: ResultCame(setup, ops, i, c, f) && ResultCame(setup, ops, i, d, g) ==> c == d && f == g
  {
    hide Run, ResultCame;
    var came := RunFits(setup, ops, i);
    if came.Some? { assert ResultCame(setup, ops, i, came.value.0, came.value.1); }
  }

  function Dispatches(k: nat): seq<Op> { seq(k, _ => DispatchNext) }

  /** Dispatching what is queued, event by event, gets to the end of the queue and wakes nobody yet. */
  lemma {:induction false} QueueRunsDry(setup: Setup, ops: seq<Op>, k: nat)
    requires var s := Run(setup, START, ops); k == |s.queued| - s.dispatched
    ensures var s, t := Run(setup, START, ops), Run(setup, START, ops + Dispatches(k));
      t.queued == s.queued && t.dispatched == |s.queued| && t.waits == s.waits
    decreases k
  {
    hide Run, DeliverEvent;
    if k == 0 {
      assert ops + Dispatches(0) == ops;
    } else {
      RunNext(setup, START, ops, DispatchNext);
      QueueRunsDry(setup, ops + [DispatchNext], k - 1);
      assert ops + Dispatches(k) == (ops + [DispatchNext]) + Dispatches(k - 1);
    }
  }

  /**
   Once its result came and the exit is queued, nothing but the dispatch of the queue stands
   between a `Wait` and its return with that result; without streams, not even that.
   */
  lemma WaitGetsThrough(setup: Setup, ops: seq<Op>, i: nat, code: int, failed: bool)
    requires ResultCame(setup, ops, i, code, failed)
    requires var s := Run(setup, START, ops); i < |s.waits| && !s.waits[i].Returned?
    ensures setup.streams
    ensures var s := Run(setup, START, ops);
      && s.dispatched <= |s.queued|
      && (Exited(s.queued) ==>
            var t := Run(setup, START, ops + Dispatches(|s.queued| - s.dispatched) + [SeeDrained(i)]);
            i < |t.waits| && t.waits[i] == Returned(code, failed))
  {
    hide Run, ResultCame;
    var s := Run(setup, START, ops);
    var came := RunFits(setup, ops, i);
    assert came == Some((code, failed));
    StartIsGood(setup);
    RunKeeps(setup, START, ops);
    var all := ops + Dispatches(|s.queued| - s.dispatched);
    QueueRunsDry(setup, ops, |s.queued| - s.dispatched);
    RunKeeps(setup, START, all);
    RunNext(setup, START, all, SeeDrained(i));
    hide UpToDate, Delivered;
  }

  // ---------- callbacks ----------

  /** The chunks of one stream that are not empty, in order. */
  function Chunks(stream: Stream, events: seq<Event>): seq<seq<byte>> {
    if events == [] then [] else
      var last := events[|events| - 1];
      Chunks(stream, events[..|events| - 1])
      + (if last.Chunk? && last.stream == stream && last.data != [] then [last.data] else [])
  }

  lemma {:induction false} CallbackHasChunks(w: Wiring, stream: Stream, events: seq<Event>)
    ensures Delivered(w, stream, events).calls == if w.callback then Chunks(stream, events) else []
    ensures !w.writer ==> Delivered(w, stream, events).written == []
  {
    if events != [] { CallbackHasChunks(w, stream, events[..|events| - 1]); }
  }

  /** When `Wait` returns without an error, each callback was called with each chunk, in order, up to a close. */
  lemma CallbacksAreComplete(setup: Setup, ops: seq<Op>, i: nat)
    requires var s := Run(setup, START, ops);
      setup.streams && i < |s.waits| && s.waits[i].Returned? && !s.waits[i].failed
    ensures var s := Run(setup, START, ops);
      var end := if s.closedAt.Some? then s.closedAt.value else |s.queued|;
      && end <= |s.queued|
      && s.stdout.calls == (if setup.out.callback then Chunks(Stdout, s.queued[..end]) else [])
      && s.stderr.calls == (if setup.err.callback then Chunks(Stderr, s.queued[..end]) else [])
  {
    hide Run, Chunks, Delivered;
    WaitMeansComplete(setup, ops, i);
    var s := Run(setup, START, ops);
    var end := if s.closedAt.Some? then s.closedAt.value else |s.queued|;
    CallbackHasChunks(setup.out, Stdout, s.queued[..end]);
    CallbackHasChunks(setup.err, Stderr, s.queued[..end]);
  }

  // ---------- closed executions ----------

  predicate AllFailedFrom(s: State, n: nat) {
    s.closedAt.Some? && n <= |s.waits| && forall i :: n <= i < |s.waits| ==> s.waits[i] == Returned(0, true)
  }

  lemma StepStaysFailed(setup: Setup, s: State, op: Op, n: nat)
    requires AllFailedFrom(s, n)
    ensures AllFailedFrom(Step(setup, s, op), n)
  {
    hide DeliverEvent;
  }

  /** Every `Wait` called on an execution already closed returns an error. */
  lemma {:induction false} WaitAfterCloseFails(setup: Setup, s: State, ops: seq<Op>, n: nat)
    requires AllFailedFrom(s, n)
    ensures AllFailedFrom(Run(setup, s, ops), n)
    decreases |ops|
  {
    hide Step, AllFailedFrom;
    if ops != [] {
      StepStaysFailed(setup, s, ops[0], n);
      WaitAfterCloseFails(setup, Step(setup, s, ops[0]), ops[1..], n);
    }
  }

  /** The exit closes the channel once, and no callback ever uses the deleted handle. */
  lemma NeverPanics(setup: Setup, ops: seq<Op>)
    ensures Run(setup, START, ops).panics == 0
    ensures Run(setup, START, ops).live == !Run(setup, START, ops).drained
  {
    hide Step;
    StartIsGood(setup);
    RunKeeps(setup, START, ops);
  }

  /** A run in which the execution is closed before its output is dispatched. */
  function LosingRun(data: seq<byte>): seq<Op> {
    [CallWait, CloseExecution, Queue(Chunk(Stdout, data)), Queue(Exit(0)), DispatchNext, DispatchNext,
     GiveResult(0, 0, false), SeeDrained(0)]
  }

  /**
   Closing while `Wait` is under way can lose output: if the native side then still gives a
   result without an error, `Wait` does not report the loss.
   */
  lemma ClosingLosesOutput(setup: Setup, data: seq<byte>)
    requires setup.streams && data != []
    ensures var s := Run(setup, START, LosingRun(data));
      s.waits == [Returned(0, false)] && s.stdout == NOTHING && Bytes(Stdout, s.queued) == data
  {
    hide Run, Delivered, Step, LosingRun;
    BytesOfOne(data);
    var s4 := ClosedBeforeOutput(setup, data);
    DroppedOutput(setup, data, s4);
  }

  lemma BytesOfOne(data: seq<byte>)
    ensures Bytes(Stdout, [Chunk(Stdout, data), Exit(0)]) == data
  {
    var chunk, exit := Chunk(Stdout, data), Exit(0);
    assert [chunk, exit][..1] == [chunk] && [chunk][..0] == [];
    assert Bytes(Stdout, [chunk]) == data;
  }

  /** Step `k` of a run. */
  lemma Unfold(setup: Setup, s: State, ops: seq<Op>, k: nat) returns (t: State)
    requires k < |ops|
    ensures t == Step(setup, s, ops[k]) && Run(setup, s, ops[k..]) == Run(setup, t, ops[k + 1..])
    ensures k + 1 == |ops| ==> Run(setup, s, ops[k..]) == t
  {
    hide Step;
    t := Step(setup, s, ops[k]);
    assert ops[k..][1..] == ops[k + 1..];
  }

  lemma ClosedBeforeOutput(setup: Setup, data: seq<byte>) returns (s4: State)
    ensures s4 == START.(waits := [AwaitingResult], released := true, closedAt := Some(0), queued := [Chunk(Stdout, data), Exit(0)])
    ensures Run(setup, START, LosingRun(data)) == Run(setup, s4, LosingRun(data)[4..])
  {
    hide Run;
    var ops := LosingRun(data);
    assert ops[0..] == ops;
    var s1 := Unfold(setup, START, ops, 0);
    var s2 := Unfold(setup, s1, ops, 1);
    var s3 := Unfold(setup, s2, ops, 2);
    s4 := Unfold(setup, s3, ops, 3);
  }

  lemma DroppedOutput(setup: Setup, data: seq<byte>, s4: State)
    requires setup.streams
    requires s4 == START.(waits := [AwaitingResult], released := true, closedAt := Some(0), queued := [Chunk(Stdout, data), Exit(0)])
    ensures var s := Run(setup, s4, LosingRun(data)[4..]);
      s.waits == [Returned(0, false)] && s.stdout == NOTHING && s.queued == s4.queued
  {
    hide Run;
    var ops := LosingRun(data);
    var s5 := Unfold(setup, s4, ops, 4);
    var s6 := Unfold(setup, s5, ops, 5);
    var s7 := Unfold(setup, s6, ops, 6);
    var s8 := Unfold(setup, s7, ops, 7);
  }
}
