/**
 The Go SDK's async operations as a step machine: any number of callers, their abandon
 goroutines, the one drain goroutine, the native runtime and one `Runtime.Close`, interleaved
 at will. A step is one atomic action: a `LoadAndDelete`, a `Value`, a `Delete`, a channel
 send or receive, a lock operation, a native call.

 The steps are as unguarded as the code: a second `Delete`, a `Value` after it, a send that
 would block, a native drain or a submission after the free are possible steps, recorded as
 faults.
 */
module HandleProtocol {
  import opened Prelude

  /** Error-only results; Create and Get; Export; Import. */
  datatype Kind = Unit | Box | Export | Import

  predicate Owned(k: Kind) { k.Export? || k.Import? }

  /** A completion: whether it carries a native payload, and whether it is an error. */
  datatype Item = Item(payload: bool, failed: bool)

  datatype Caller =
    | Entering | Locked | SawOpen            // ensureDrainRunning
    | Ready                                  // about to make and register the handle
    | Registered
    | Failing | FailDelete                   // deleteHandleForDispatch after a synchronous failure
    | Waiting                                // select on the result, the context and closing
    | Received(item: Item)
    | Abandoning | OwnDelete                 // abandonAsync*, abandonOwnedResult
    | Returned

  /** The goroutine an abandoning caller leaves behind. */
  datatype Abandoner =
    | NoGoroutine
    | Select
    | Claiming(got: Option<Item>)
    | Deleting(got: Option<Item>)
    | Cleanup(got: Option<Item>)
    | Finished

  /** A task the freed runtime took with it, or that was submitted to it too late, is `Reclaimed`: it never completes. */
  datatype Native = Absent | Running | Queued(item: Item) | Taken | Reclaimed

  /** Where the drain goroutine is in this operation's callback. */
  datatype Dispatch = Idle | AtClaim(item: Item) | AtValue(item: Item) | AtSend(item: Item) | AtDelete

  datatype Op = Op(
    kind: Kind, caller: Caller, abandoner: Abandoner, native: Native, dispatch: Dispatch,
    channel: Option<Item>,          // capacity 1
    claims: nat, deletes: nat,      // of its handle
    sends: nat,
    produced: nat,                  // native payloads made, and what became of them
    handed: nat, disposed: nat, dropped: nat)

  datatype Lock = Free | HeldBy(id: nat) | HeldByClose

  datatype Closer = Open | Signalled | HoldsLock | AwaitsDrain | FreeNext | Freed | Closed

  datatype Drain = NotStarted | Top | Calling | InNative | Busy(id: nat) | Exited

  datatype Fault = DoubleDelete | ValueAfterDelete | SendBlocked | DrainAfterFree | SubmitAfterFree

  datatype State = State(
    ops: map<nat, Op>, active: set<nat>,
    lock: Lock, closing: bool, closer: Closer,
    drain: Drain, starts: nat, stop: bool, freed: bool,
    faults: set<Fault>)

  const INIT := State(map[], {}, Free, false, Open, NotStarted, 0, false, false, {})

  function NewOp(kind: Kind): Op {
    Op(kind, Entering, NoGoroutine, Absent, Idle, None, 0, 0, 0, 0, 0, 0, 0)
  }

  /** The caller's goroutine in ensureDrainRunning. */
  datatype EnsureMove = TakeLock | CheckClosing | StartDrain

  /** The caller's goroutine from then on. */
  datatype CallerMove =
    | Register | StopsEarly | Submit | SubmitFails
    | ClaimFailed | DeleteFailed
    | Receive | Return
    | ContextDone | SeesClosing
    | Abandon | DeleteOwned

  /** The goroutine it left behind. */
  datatype LateMove = LateReceive | LateClosing | LateClaim | LateDelete | LateCleanup

  /** The native task, and the drain goroutine in this operation's callback. */
  datatype NativeMove =
    | Complete(item: Item) | TakeEvent
    | DispatchClaim | DispatchValue | DispatchSend | DispatchDelete

  /** The drain goroutine between callbacks. */
  datatype DrainMove = CheckStop | CallDrain | DrainReturns

  datatype CloseMove = CloseSignal | CloseLock | CloseStop | CloseDrained | CloseFree | CloseForget

  datatype Step =
    | Begin(id: nat, kind: Kind)
    | ByEnsure(id: nat, ensure: EnsureMove)
    | ByCaller(id: nat, caller: CallerMove)
    | ByAbandoner(id: nat, late: LateMove)
    | ByNative(id: nat, native: NativeMove)
    | ByDrain(drain: DrainMove)
    | ByClose(close: CloseMove)

  function One(b: bool): (n: nat)
    ensures n <= 1
  {
    if b then 1 else 0
  }

  function Put(s: State, id: nat, op: Op): State { s.(ops := s.ops[id := op]) }

  function Accuse(s: State, guilty: bool, f: Fault): State {
    if guilty then s.(faults := s.faults + {f}) else s
  }

  /** `LoadAndDelete`: the winner moves to `won`, a loser to `lost`. */
  function Claim(s: State, id: nat, won: Op, lost: Op): State {
    if id in s.active
    then Put(s, id, won.(claims := won.claims + 1)).(active := s.active - {id})
    else Put(s, id, lost)
  }

  /** `handle.Delete()`, which panics on a handle already deleted. */
  function Delete(s: State, id: nat, op: Op): State {
    Accuse(Put(s, id, op.(deletes := op.deletes + 1)), op.deletes > 0, DoubleDelete)
  }

  /** What the native side may post: payloads are for the kinds that carry one. */
  predicate Postable(kind: Kind, item: Item) {
    (kind.Unit? ==> !item.payload) && (kind.Box? ==> !(item.payload && item.failed))
  }

  predicate Enabled(s: State, st: Step) {
    match st
    case Begin(id, _) => id !in s.ops
    case ByEnsure(id, m) => id in s.ops && EnsureEnabled(s, m, s.ops[id])
    case ByCaller(id, m) => id in s.ops && CallerEnabled(s, m, s.ops[id])
    case ByAbandoner(id, m) => id in s.ops && LateEnabled(s, m, s.ops[id])
    case ByNative(id, m) => id in s.ops && NativeEnabled(s, m, s.ops[id])
    case ByDrain(m) => DrainEnabled(s, m)
    case ByClose(m) => CloseEnabled(s, m)
  }

  predicate EnsureEnabled(s: State, m: EnsureMove, op: Op) {
    match m
    case TakeLock => op.caller.Entering? && s.lock.Free?
    case CheckClosing => op.caller.Locked?
    case StartDrain => op.caller.SawOpen?
  }

  predicate CallerEnabled(s: State, m: CallerMove, op: Op) {
    match m
    case Register => op.caller.Ready?
    case Submit => op.caller.Registered?
    case StopsEarly => op.caller.Registered? && Owned(op.kind)
    case SubmitFails => op.caller.Registered?
    case ClaimFailed => op.caller.Failing?
    case DeleteFailed => op.caller.FailDelete?
    case Receive => op.caller.Waiting? && op.channel.Some?
    case Return => op.caller.Received?
    case ContextDone => op.caller.Waiting?
    case SeesClosing => op.caller.Waiting? && s.closing
    case Abandon => op.caller.Abandoning?
    case DeleteOwned => op.caller.OwnDelete?
  }

  predicate LateEnabled(s: State, m: LateMove, op: Op) {
    match m
    case LateReceive => op.abandoner.Select? && op.channel.Some?
    case LateClosing => op.abandoner.Select? && !Owned(op.kind) && s.closing
    case LateClaim => op.abandoner.Claiming?
    case LateDelete => op.abandoner.Deleting?
    case LateCleanup => op.abandoner.Cleanup?
  }

  predicate NativeEnabled(s: State, m: NativeMove, op: Op) {
    match m
    case Complete(item) => op.native.Running? && !s.freed && Postable(op.kind, item)
    case TakeEvent => s.drain.InNative? && op.native.Queued?
    case DispatchClaim => op.dispatch.AtClaim?
    case DispatchValue => op.dispatch.AtValue?
    case DispatchSend => op.dispatch.AtSend?
    case DispatchDelete => op.dispatch.AtDelete?
  }

  predicate DrainEnabled(s: State, m: DrainMove) {
    match m
    case CheckStop => s.drain.Top?
    case CallDrain => s.drain.Calling?
    case DrainReturns => s.drain.InNative?
  }

  predicate CloseEnabled(s: State, m: CloseMove) {
    match m
    case CloseSignal => s.closer.Open?
    case CloseLock => s.closer.Signalled? && s.lock.Free?
    case CloseStop => s.closer.HoldsLock?
    case CloseDrained => s.closer.AwaitsDrain? && s.drain.Exited?
    case CloseFree => s.closer.FreeNext?
    case CloseForget => s.closer.Freed?
  }

  /** The runtime is freed: what was running or queued is reclaimed with the native queue. */
  function Reclaim(op: Op): Op {
    if op.native.Running? then op.(native := Reclaimed)
    else if op.native.Queued? then op.(native := Reclaimed, dropped := op.dropped + One(op.native.item.payload))
    else op
  }

  function Do(s: State, st: Step): State
    requires Enabled(s, st)
  {
    match st
    case Begin(id, kind) => Put(s, id, NewOp(kind))
    case ByEnsure(id, m) => EnsureDo(s, id, m, s.ops[id])
    case ByCaller(id, m) => CallerDo(s, id, m, s.ops[id])
    case ByAbandoner(id, m) => LateDo(s, id, m, s.ops[id])
    case ByNative(id, m) => NativeDo(s, id, m, s.ops[id])
    case ByDrain(m) => DrainDo(s, m)
    case ByClose(m) => CloseDo(s, m)
  }

  function DrainDo(s: State, m: DrainMove): State {
    match m
    case CheckStop => s.(drain := if s.stop then Exited else Calling)
    case CallDrain => Accuse(s.(drain := InNative), s.freed, DrainAfterFree)
    case DrainReturns => s.(drain := Top)
  }

  function CloseDo(s: State, m: CloseMove): State {
    match m
    case CloseSignal => s.(closing := true, closer := Signalled)
    case CloseLock => s.(lock := HeldByClose, closer := HoldsLock)
    case CloseStop =>
      if s.drain.NotStarted? then s.(lock := Free, closer := FreeNext)
      else s.(lock := Free, stop := true, closer := AwaitsDrain)
    case CloseDrained => s.(closer := FreeNext)
    case CloseFree => s.(freed := true, closer := Freed, ops := map id | id in s.ops :: Reclaim(s.ops[id]))
    case CloseForget => s.(closer := Closed)
  }

  function EnsureDo(s: State, id: nat, m: EnsureMove, op: Op): State
    requires EnsureEnabled(s, m, op)
  {
    match m
    case TakeLock => Put(s, id, op.(caller := Locked)).(lock := HeldBy(id))
    case CheckClosing =>
      if s.closing then Put(s, id, op.(caller := Ready)).(lock := Free) else Put(s, id, op.(caller := SawOpen))
    case StartDrain =>
      var s' := Put(s, id, op.(caller := Ready)).(lock := Free);
      if s.closer.Closed? || !s.drain.NotStarted? then s' else s'.(drain := Top, starts := s.starts + 1)
  }

  function CallerDo(s: State, id: nat, m: CallerMove, op: Op): State
    requires CallerEnabled(s, m, op)
  {
    match m
    case Register => Put(s, id, op.(caller := Registered)).(active := s.active + {id})
    case Submit =>
      Accuse(Put(s, id, op.(caller := Waiting, native := if s.freed then Reclaimed else Running)), s.freed, SubmitAfterFree)
    case StopsEarly => Put(s, id, op.(caller := Failing))
    case SubmitFails => Accuse(Put(s, id, op.(caller := Failing)), s.freed, SubmitAfterFree)
    case ClaimFailed => Claim(s, id, op.(caller := FailDelete), op.(caller := Returned))
    case DeleteFailed => Delete(s, id, op.(caller := Returned))
    case Receive => Put(s, id, op.(caller := Received(op.channel.value), channel := None))
    case Return => Put(s, id, Deliver(op, op.caller.item).(caller := Returned))
    case ContextDone => Put(s, id, op.(caller := Abandoning))
    case SeesClosing => Put(s, id, op.(caller := Abandoning))
    case Abandon =>
      var leave := op.(caller := Returned, abandoner := Select);
      if Owned(op.kind) then Claim(s, id, op.(caller := OwnDelete), leave) else Put(s, id, leave)
    case DeleteOwned => Delete(s, id, op.(caller := Returned))
  }

  function LateDo(s: State, id: nat, m: LateMove, op: Op): State
    requires LateEnabled(s, m, op)
  {
    match m
    case LateReceive =>
      var got := op.channel;
      Put(s, id, op.(channel := None, abandoner := if Owned(op.kind) then Cleanup(got) else Claiming(got)))
    case LateClosing => Put(s, id, op.(abandoner := Claiming(None)))
    case LateClaim =>
      Claim(s, id, op.(abandoner := Deleting(op.abandoner.got)), op.(abandoner := Cleanup(op.abandoner.got)))
    case LateDelete => Delete(s, id, op.(abandoner := Cleanup(op.abandoner.got)))
    case LateCleanup => Put(s, id, Dispose(op, op.abandoner.got).(abandoner := Finished))
  }

  function NativeDo(s: State, id: nat, m: NativeMove, op: Op): State
    requires NativeEnabled(s, m, op)
  {
    match m
    case Complete(item) => Put(s, id, op.(native := Queued(item), produced := op.produced + One(item.payload)))
    case TakeEvent => Put(s, id, op.(native := Taken, dispatch := AtClaim(op.native.item))).(drain := Busy(id))
    case DispatchClaim =>
      var item := op.dispatch.item;
      var s' := Claim(s, id, op.(dispatch := AtValue(item)),
                      op.(dispatch := Idle, disposed := op.disposed + One(item.payload)));
      if id in s.active then s' else s'.(drain := InNative)
    case DispatchValue =>
      Accuse(Put(s, id, op.(dispatch := AtSend(op.dispatch.item))), op.deletes > 0, ValueAfterDelete)
    case DispatchSend =>
      if op.channel.Some? then Accuse(s, true, SendBlocked)
      else Put(s, id, op.(dispatch := AtDelete, channel := Some(op.dispatch.item), sends := op.sends + 1))
    case DispatchDelete => Delete(s, id, op.(dispatch := Idle)).(drain := InNative)
  }

  /** What a caller that got its result does with it: Export copies the path and frees it. */
  function Deliver(op: Op, item: Item): Op {
    match op.kind
    case Export => op.(disposed := op.disposed + One(item.payload))
    case Import =>
      if item.failed then op.(disposed := op.disposed + One(item.payload))
      else op.(handed := op.handed + One(item.payload))
    case _ => if item.failed then op else op.(handed := op.handed + One(item.payload))
  }

  /** What an abandon goroutine does with a result that came after all. */
  function Dispose(op: Op, got: Option<Item>): Op {
    match got
    case Some(item) =>
      if Owned(op.kind) || !item.failed then op.(disposed := op.disposed + One(item.payload)) else op
    case None => op
  }

  /** A run: every state comes from the one before by an enabled step. */
  ghost predicate Run(run: seq<State>) {
    && run != [] && run[0] == INIT
    && forall i :: 0 < i < |run| ==> Next(run[i - 1], run[i])
  }

  ghost predicate Next(s: State, s': State) {
    exists st :: Enabled(s, st) && s' == Do(s, st)
  }
}
