/** While the runtime is not closing, a caller whose operation completed has its result coming. */
module HandleProgress {
  import opened Prelude
  import opened HandleProtocol
  import opened HandleSafety
  import opened HandleRaces
  import opened HandleResults

  // ---------- what keeps the drain goroutine going ----------

  predicate PastEnsure(op: Op) { !op.caller.Entering? && !op.caller.Locked? && !op.caller.SawOpen? }

  /** A completion taken off the queue is claimed at once, and only a submitted operation is waited for. */
  predicate Coming(op: Op, live: bool, freed: bool) {
    && (live && op.native.Taken? ==> op.dispatch.AtClaim?)
    && (op.caller.Waiting? ==> !op.native.Absent?)
    && (op.native.Reclaimed? ==> freed)
  }

  ghost predicate Progress(s: State) {
    && (s.stop ==> s.closing) && (s.drain.Exited? ==> s.stop)
    && (forall id :: id in s.ops ==> Coming(s.ops[id], id in s.active, s.freed))
    && (forall id :: id in s.ops && PastEnsure(s.ops[id]) && !s.closing ==> !s.drain.NotStarted?)
  }

  lemma EnsureComing(s: State, id: nat, m: EnsureMove)
    requires Inv(s) && Progress(s) && id in s.ops && EnsureEnabled(s, m, s.ops[id])
    ensures Progress(EnsureDo(s, id, m, s.ops[id]))
  {
    hide OpInv;
    assert OpPlace(s, id);
  }

  lemma CallerComing(s: State, id: nat, m: CallerMove)
    requires id in s.ops && CallerEnabled(s, m, s.ops[id]) && OpInv(s.ops[id], id in s.active, s.closing)
    requires Coming(s.ops[id], id in s.active, s.freed)
    ensures var s' := CallerDo(s, id, m, s.ops[id]);
      && id in s'.ops && Coming(s'.ops[id], id in s'.active, s'.freed) && PastEnsure(s.ops[id])
  {
    hide PayloadInv;
  }

  lemma LateComing(s: State, id: nat, m: LateMove)
    requires id in s.ops && LateEnabled(s, m, s.ops[id]) && OpInv(s.ops[id], id in s.active, s.closing)
    requires Coming(s.ops[id], id in s.active, s.freed)
    ensures var s' := LateDo(s, id, m, s.ops[id]);
      && id in s'.ops && Coming(s'.ops[id], id in s'.active, s'.freed) && PastEnsure(s.ops[id])
  {
    hide ClaimInv, PayloadInv;
  }

  lemma NativeComing(s: State, id: nat, m: NativeMove)
    requires id in s.ops && NativeEnabled(s, m, s.ops[id]) && OpInv(s.ops[id], id in s.active, s.closing)
    requires Coming(s.ops[id], id in s.active, s.freed)
    ensures var s' := NativeDo(s, id, m, s.ops[id]);
      && id in s'.ops && Coming(s'.ops[id], id in s'.active, s'.freed)
      && s'.ops[id].caller == s.ops[id].caller
      && (s'.drain == s.drain || s'.drain == Busy(id) || s'.drain.InNative?)
  {
    hide PayloadInv;
  }

  lemma ReclaimComing(op: Op, live: bool, freed: bool)
    requires Coming(op, live, freed)
    ensures Coming(Reclaim(op), live, true) && PastEnsure(Reclaim(op)) == PastEnsure(op)
  {
  }

  /** A step of one operation that is past `ensureDrainRunning` and leaves the drain goroutine started. */
  lemma OpStepProgress(s: State, id: nat, s': State)
    requires Progress(s) && id in s.ops && Framed(s, id, s') && id in s'.ops
    requires Coming(s'.ops[id], id in s'.active, s'.freed)
    requires PastEnsure(s'.ops[id]) ==> PastEnsure(s.ops[id])
    requires s'.drain == s.drain || s'.drain == Busy(id) || s'.drain.InNative?
    ensures Progress(s')
  {
    hide Coming;
  }

  lemma StepProgress(s: State, st: Step)
    requires Inv(s) && Progress(s) && Enabled(s, st)
    ensures Progress(Do(s, st))
  {
    hide OpInv, CallerDo, LateDo, NativeDo, EnsureDo, Coming, Reclaim, PastEnsure;
    match st {
      case Begin(id, kind) => NewComing(kind, s.freed); assert id !in s.active;
      case ByEnsure(id, m) => EnsureComing(s, id, m);
      case ByCaller(id, m) =>
        assert OpPlace(s, id);
        CallerComing(s, id, m);
        CallerFramed(s, id, m, s.ops[id]);
        CallerQuiet(s, id, m);
        OpStepProgress(s, id, Do(s, st));
      case ByAbandoner(id, m) =>
        assert OpPlace(s, id);
        LateComing(s, id, m);
        AbandonerFramed(s, id, m, s.ops[id]);
        LateKeepsDrain(s, id, m);
        OpStepProgress(s, id, Do(s, st));
      case ByNative(id, m) =>
        assert OpPlace(s, id);
        NativeComing(s, id, m);
        DrainFramed(s, id, m, s.ops[id]);
        SamePast(s.ops[id], Do(s, st).ops[id]);
        OpStepProgress(s, id, Do(s, st));
      case ByDrain(m) =>
      case ByClose(m) => forall i | i in s.ops { ReclaimComing(s.ops[i], i in s.active, s.freed); }
    }
  }

  lemma NewComing(kind: Kind, freed: bool)
    ensures Coming(NewOp(kind), false, freed) && !PastEnsure(NewOp(kind))
  {
  }

  lemma LateKeepsDrain(s: State, id: nat, m: LateMove)
    requires id in s.ops && LateEnabled(s, m, s.ops[id])
    ensures LateDo(s, id, m, s.ops[id]).drain == s.drain
  {
  }

  lemma SamePast(op: Op, op': Op)
    requires op'.caller == op.caller
    ensures PastEnsure(op') == PastEnsure(op)
  {
  }

  lemma {:induction false} RunProgress(run: seq<State>, n: nat)
    requires Run(run) && n < |run|
    ensures Progress(run[n])
  {
    if n > 0 {
      RunProgress(run, n - 1);
      RunKeepsInv(run, n - 1);
      hide Run, Inv, Progress, Do, Enabled;
      var st := LastStep(run, n);
      StepProgress(run[n - 1], st);
    }
  }

  // ---------- the way to a result ----------

  /** The operation has completed, its caller waits for it, and nobody is closing the runtime. */
  ghost predicate Awaited(s: State, id: nat) {
    && Inv(s) && Progress(s) && !s.closing && id in s.ops
    && s.ops[id].caller.Waiting? && !s.ops[id].native.Running?
  }

  /** The next step of the drain goroutine. */
  function DrainNext(s: State, id: nat): Step {
    match s.drain
    case Calling => ByDrain(CallDrain)
    case InNative => ByNative(id, TakeEvent)
    case Busy(j) =>
      if j !in s.ops || s.ops[j].dispatch.AtClaim? then ByNative(j, DispatchClaim)
      else if s.ops[j].dispatch.AtValue? then ByNative(j, DispatchValue)
      else if s.ops[j].dispatch.AtSend? then ByNative(j, DispatchSend)
      else ByNative(j, DispatchDelete)
    case _ => ByDrain(CheckStop)
  }

  function Ahead(d: Dispatch): nat {
    match d
    case AtClaim(_) => 4
    case AtValue(_) => 3
    case AtSend(_) => 2
    case AtDelete => 1
    case Idle => 0
  }

  /** How many steps it takes at most. */
  function ToGo(s: State, id: nat): nat {
    match s.drain
    case Calling => 6
    case InNative => 5
    case Busy(j) => if j !in s.ops then 0 else if j == id then Ahead(s.ops[j].dispatch) else 5 + Ahead(s.ops[j].dispatch)
    case _ => 7
  }

  predicate OfDrain(st: Step) {
    st.ByDrain? || (st.ByNative? && !st.native.Complete?)
  }

  lemma DrainIsAtIt(s: State, id: nat)
    requires Awaited(s, id) && s.ops[id].channel.None?
    ensures Enabled(s, DrainNext(s, id)) && OfDrain(DrainNext(s, id))
    ensures !s.drain.NotStarted? && !s.drain.Exited? && !s.stop
    ensures s.drain.Busy? ==> s.drain.id in s.ops && OpPlace(s, s.drain.id)
    ensures s.drain == Busy(id) || s.ops[id].native.Queued?
  {
    var op := s.ops[id];
    assert OpPlace(s, id) && Coming(op, id in s.active, s.freed);
    if s.drain.Busy? { assert OpPlace(s, s.drain.id); }
    hide ClaimInv, PayloadInv;
  }

  lemma ClaimedIsSent(s: State, id: nat)
    requires Awaited(s, id) && s.ops[id].channel.None? && s.ops[id].dispatch.AtClaim?
    ensures id in s.active
  {
    assert OpPlace(s, id);
    hide ClaimInv, PayloadInv;
  }

  lemma SentAtMostOnce(s: State, j: nat)
    requires Inv(s) && j in s.ops && s.ops[j].dispatch.AtSend?
    ensures s.ops[j].channel.None?
  {
    assert OpPlace(s, j);
    hide ClaimInv, PayloadInv, Waiters;
  }

  /** Each step leaves the caller waiting and brings the result closer. */
  lemma DrainSteps(s: State, id: nat)
    requires Awaited(s, id) && s.ops[id].channel.None?
    ensures Enabled(s, DrainNext(s, id)) && OfDrain(DrainNext(s, id))
    ensures var s' := Do(s, DrainNext(s, id)); Awaited(s', id) && (s'.ops[id].channel.Some? || ToGo(s', id) < ToGo(s, id))
  {
    var st := DrainNext(s, id);
    DrainIsAtIt(s, id);
    StepKeepsInv(s, st);
    StepProgress(s, st);
    if s.drain == Busy(id) && s.ops[id].dispatch.AtClaim? { ClaimedIsSent(s, id); }
    if s.drain.Busy? && s.ops[s.drain.id].dispatch.AtSend? { SentAtMostOnce(s, s.drain.id); }
    hide Inv, Progress, OpPlace;
    match st {
      case ByDrain(m) =>
      case ByNative(j, m) => NativeLeavesWaiting(s, j, m, id);
    }
    DrainCloser(s, id);
  }

  lemma NativeLeavesWaiting(s: State, j: nat, m: NativeMove, id: nat)
    requires j in s.ops && NativeEnabled(s, m, s.ops[j]) && id in s.ops && !s.ops[id].native.Running?
    ensures var s' := NativeDo(s, j, m, s.ops[j]);
      && id in s'.ops && s'.ops[id].caller == s.ops[id].caller && s'.closing == s.closing
      && !s'.ops[id].native.Running?
  {
  }

  lemma DrainCloser(s: State, id: nat)
    requires id in s.ops && s.ops[id].channel.None? && Enabled(s, DrainNext(s, id)) && !s.stop
    requires !s.drain.NotStarted? && !s.drain.Exited?
    requires s.drain.Busy? ==> s.drain.id in s.ops && !s.ops[s.drain.id].dispatch.Idle?
    requires s.drain == Busy(id) || s.ops[id].native.Queued?
    requires s.drain == Busy(id) && s.ops[id].dispatch.AtClaim? ==> id in s.active
    requires s.drain == Busy(id) ==> !s.ops[id].dispatch.AtDelete?
    requires s.drain.Busy? && s.ops[s.drain.id].dispatch.AtSend? ==> s.ops[s.drain.id].channel.None?
    ensures var s' := Do(s, DrainNext(s, id)); id in s'.ops && (s'.ops[id].channel.Some? || ToGo(s', id) < ToGo(s, id))
  {
  }

  lemma {:induction false} WayToResult(s: State, id: nat) returns (steps: seq<Step>)
    requires Awaited(s, id)
    ensures Possible(s, steps) && forall i :: 0 <= i < |steps| ==> OfDrain(steps[i])
    ensures id in Follow(s, steps).ops && Enabled(Follow(s, steps), ByCaller(id, Receive))
    decreases if s.ops[id].channel.Some? then 0 else 1 + ToGo(s, id)
  {
    hide Do, ToGo, DrainNext, OfDrain, Inv, Progress;
    steps := [];
    if s.ops[id].channel.None? {
      DrainSteps(s, id);
      var st := DrainNext(s, id);
      var rest := WayToResult(Do(s, st), id);
      steps := [st] + rest;
      assert steps[1..] == rest;
    }
  }

  /**
   While the runtime is not closing, a caller that waits for an operation that has completed needs
   nothing but the drain goroutine's own steps to have its result to receive.
   */
  lemma ResultComes(run: seq<State>, n: nat, id: nat) returns (steps: seq<Step>)
    requires Run(run) && n < |run| && id in run[n].ops && !run[n].closing
    requires run[n].ops[id].caller.Waiting? && !run[n].ops[id].native.Running?
    ensures Possible(run[n], steps) && forall i :: 0 <= i < |steps| ==> OfDrain(steps[i])
    ensures id in Follow(run[n], steps).ops && Enabled(Follow(run[n], steps), ByCaller(id, Receive))
  {
    hide Run, Inv, Progress, Possible, Follow, Enabled;
    RunKeepsInv(run, n);
    RunProgress(run, n);
    steps := WayToResult(run[n], id);
  }

  // ---------- closing ends ----------

  /** Who may have to move for `Close` to end: the lock's holder, the drain goroutine and `Close` itself. */
  predicate OfClose(st: Step) { OfDrain(st) || st.ByClose? || st.ByEnsure? }

  ghost predicate ClosingDown(s: State) {
    Inv(s) && HolderOk(s) && s.closing && (s.closer.AwaitsDrain? ==> s.stop)
  }

  /** The next step of the drain goroutine on its way out. */
  function WayOut(s: State): Step {
    match s.drain
    case Calling => ByDrain(CallDrain)
    case InNative => ByDrain(DrainReturns)
    case Busy(j) =>
      if j !in s.ops || s.ops[j].dispatch.AtClaim? then ByNative(j, DispatchClaim)
      else if s.ops[j].dispatch.AtValue? then ByNative(j, DispatchValue)
      else if s.ops[j].dispatch.AtSend? then ByNative(j, DispatchSend)
      else ByNative(j, DispatchDelete)
    case _ => ByDrain(CheckStop)
  }

  function OutIn(s: State): nat {
    match s.drain
    case Top => 1
    case InNative => 2
    case Calling => 3
    case Busy(j) => if j !in s.ops then 3 else 3 + Ahead(s.ops[j].dispatch)
    case _ => 0
  }

  function CloseNext(s: State): Step {
    match s.closer
    case Signalled =>
      if s.lock.HeldBy? && s.lock.id in s.ops then
        ByEnsure(s.lock.id, if s.ops[s.lock.id].caller.Locked? then CheckClosing else StartDrain)
      else ByClose(CloseLock)
    case HoldsLock => ByClose(CloseStop)
    case AwaitsDrain => if s.drain.Exited? then ByClose(CloseDrained) else WayOut(s)
    case FreeNext => ByClose(CloseFree)
    case _ => ByClose(CloseForget)
  }

  /** How far `Close` still has to go. */
  function CloseIn(s: State): nat {
    match s.closer
    case Open => 0
    case Signalled => 13 + (if s.lock.HeldBy? then 1 else 0)
    case HoldsLock => 12
    case AwaitsDrain => 3 + OutIn(s)
    case FreeNext => 2
    case Freed => 1
    case Closed => 0
  }

  lemma CloseIsEnabled(s: State)
    requires ClosingDown(s) && !s.closer.Closed?
    ensures Enabled(s, CloseNext(s)) && OfClose(CloseNext(s))
    ensures s.drain.Busy? ==> s.drain.id in s.ops && OpPlace(s, s.drain.id)
    ensures s.lock.HeldByClose? ==> s.closer.HoldsLock?
    ensures s.closer.AwaitsDrain? ==> s.stop && !s.drain.NotStarted?
    ensures s.lock.HeldBy? ==> s.lock.id in s.ops
  {
    if s.drain.Busy? { assert OpPlace(s, s.drain.id); }
    hide OpInv;
  }

  lemma CloseCloser(s: State)
    requires Enabled(s, CloseNext(s)) && s.closing && !s.closer.Open? && !s.closer.Closed?
    requires s.drain.Busy? ==> s.drain.id in s.ops && !s.ops[s.drain.id].dispatch.Idle?
    requires s.drain.Busy? && s.ops[s.drain.id].dispatch.AtSend? ==> s.ops[s.drain.id].channel.None?
    requires s.closer.AwaitsDrain? ==> s.stop && !s.drain.NotStarted?
    requires s.closer.Signalled? && s.lock.HeldBy? ==> s.lock.id in s.ops
    ensures CloseIn(Do(s, CloseNext(s))) < CloseIn(s)
  {
  }

  lemma CloseSteps(s: State)
    requires ClosingDown(s) && !s.closer.Closed?
    ensures Enabled(s, CloseNext(s)) && OfClose(CloseNext(s))
    ensures ClosingDown(Do(s, CloseNext(s))) && CloseIn(Do(s, CloseNext(s))) < CloseIn(s)
  {
    var st := CloseNext(s);
    CloseIsEnabled(s);
    if s.drain.Busy? && s.ops[s.drain.id].dispatch.AtSend? { SentAtMostOnce(s, s.drain.id); }
    StepKeepsInv(s, st);
    StepHolds(s, st);
    StepStaysClosing(s, st);
    AwaitingStops(Do(s, st));
    assert !s.closer.Open? by { AwaitingStops(s); }
    hide Inv, HolderOk, OpInv;
    CloseCloser(s);
  }

  lemma AwaitingStops(s: State)
    requires Inv(s)
    ensures s.closer.AwaitsDrain? ==> s.stop
    ensures s.closing ==> !s.closer.Open?
  {
  }

  lemma {:induction false} WayToClosed(s: State) returns (steps: seq<Step>)
    requires ClosingDown(s)
    ensures Possible(s, steps) && (forall i :: 0 <= i < |steps| ==> OfClose(steps[i])) && Follow(s, steps).closer.Closed?
    decreases CloseIn(s)
  {
    hide Do, CloseIn, CloseNext, OfClose, ClosingDown;
    steps := [];
    if !s.closer.Closed? {
      CloseSteps(s);
      var rest := WayToClosed(Do(s, CloseNext(s)));
      steps := [CloseNext(s)] + rest;
      assert steps[1..] == rest;
    }
  }

  /**
   `Close` never gets stuck: from wherever it is, steps of its own, of the drain goroutine and of
   whoever holds the lock lead to its end.
   */
  lemma CloseGetsThrough(run: seq<State>, n: nat) returns (steps: seq<Step>)
    requires Run(run) && n < |run| && run[n].closing
    ensures Possible(run[n], steps) && (forall i :: 0 <= i < |steps| ==> OfClose(steps[i]))
    ensures Follow(run[n], steps).closer.Closed?
  {
    hide Run, Inv, Possible, Follow, HolderOk;
    RunKeepsInv(run, n);
    RunHolds(run, n);
    AwaitingStops(run[n]);
    steps := WayToClosed(run[n]);
  }
}
