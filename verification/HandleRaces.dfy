/** The races with `Runtime.Close` that the handle protocol does not win, and exactly when it loses them. */
module HandleRaces {
  import opened Prelude
  import opened HandleProtocol
  import opened HandleSafety

  // ---------- ways on from a state ----------

  predicate Possible(s: State, steps: seq<Step>)
    decreases |steps|
  {
    steps != [] ==> Enabled(s, steps[0]) && Possible(Do(s, steps[0]), steps[1..])
  }

  function Follow(s: State, steps: seq<Step>): State
    requires Possible(s, steps)
    decreases |steps|
  {
    if steps == [] then s else Follow(Do(s, steps[0]), steps[1..])
  }

  predicate NoBegin(steps: seq<Step>) { forall i :: 0 <= i < |steps| ==> !steps[i].Begin? }

  // ---------- submitting too late ----------

  /** The caller has begun, and may yet call the native side for the first time. */
  predicate Unsubmitted(op: Op) {
    op.caller.Entering? || op.caller.Locked? || op.caller.SawOpen? || op.caller.Ready? || op.caller.Registered?
  }

  ghost predicate AllSubmitted(s: State) { forall id :: id in s.ops ==> !Unsubmitted(s.ops[id]) }

  /** Whoever holds the lock is in the middle of `ensureDrainRunning`. */
  predicate HolderOk(s: State) {
    s.lock.HeldBy? ==> s.lock.id in s.ops && (s.ops[s.lock.id].caller.Locked? || s.ops[s.lock.id].caller.SawOpen?)
  }

  lemma CallerHolds(s: State, id: nat, m: CallerMove)
    requires HolderOk(s) && id in s.ops && CallerEnabled(s, m, s.ops[id])
    ensures HolderOk(CallerDo(s, id, m, s.ops[id]))
  {
    CallerQuiet(s, id, m);
    CallerFramed(s, id, m, s.ops[id]);
    hide CallerDo;
  }

  lemma LateLeaves(s: State, id: nat, m: LateMove)
    requires id in s.ops && LateEnabled(s, m, s.ops[id])
    ensures var s' := LateDo(s, id, m, s.ops[id]);
      id in s'.ops && s'.ops[id].caller == s.ops[id].caller && s'.lock == s.lock && s'.freed == s.freed
      && (SubmitAfterFree in s'.faults ==> SubmitAfterFree in s.faults)
  {
  }

  lemma NativeLeaves(s: State, id: nat, m: NativeMove)
    requires id in s.ops && NativeEnabled(s, m, s.ops[id])
    ensures var s' := NativeDo(s, id, m, s.ops[id]);
      id in s'.ops && s'.ops[id].caller == s.ops[id].caller && s'.lock == s.lock && s'.freed == s.freed
      && (SubmitAfterFree in s'.faults ==> SubmitAfterFree in s.faults)
  {
  }

  lemma StepHolds(s: State, st: Step)
    requires Inv(s) && HolderOk(s) && Enabled(s, st)
    ensures HolderOk(Do(s, st))
  {
    hide OpInv, CallerDo, LateDo, NativeDo;
    match st {
      case ByEnsure(id, m) => assert OpPlace(s, id);
      case ByCaller(id, m) => CallerHolds(s, id, m);
      case ByAbandoner(id, m) => LateLeaves(s, id, m); AbandonerFramed(s, id, m, s.ops[id]);
      case ByNative(id, m) => NativeLeaves(s, id, m); DrainFramed(s, id, m, s.ops[id]);
      case _ =>
    }
  }

  lemma {:induction false} RunHolds(run: seq<State>, n: nat)
    requires Run(run) && n < |run|
    ensures HolderOk(run[n])
  {
    if n > 0 {
      RunHolds(run, n - 1);
      RunKeepsInv(run, n - 1);
      assert Next(run[n - 1], run[n]);
      var st :| Enabled(run[n - 1], st) && run[n] == Do(run[n - 1], st);
      hide Inv, HolderOk;
      StepHolds(run[n - 1], st);
    }
  }

  lemma EnsuringIsUnsubmitted(s: State, id: nat, m: EnsureMove)
    requires id in s.ops && EnsureEnabled(s, m, s.ops[id])
    ensures Unsubmitted(s.ops[id])
  {
  }

  /** A step, other than the beginning of an operation, after which still nobody can submit. */
  lemma StepStaysSubmitted(s: State, st: Step)
    requires s.freed && AllSubmitted(s) && Enabled(s, st) && !st.Begin?
    ensures Do(s, st).freed && AllSubmitted(Do(s, st)) && Do(s, st).ops.Keys == s.ops.Keys
    ensures SubmitAfterFree in Do(s, st).faults ==> SubmitAfterFree in s.faults
  {
    hide CallerDo, LateDo, NativeDo;
    match st {
      case ByEnsure(id, m) => EnsuringIsUnsubmitted(s, id, m);
      case ByCaller(id, m) => CallerStaysSubmitted(s, id, m); CallerFramed(s, id, m, s.ops[id]);
      case ByAbandoner(id, m) => LateLeaves(s, id, m); AbandonerFramed(s, id, m, s.ops[id]);
      case ByNative(id, m) => NativeLeaves(s, id, m); DrainFramed(s, id, m, s.ops[id]);
      case ByDrain(m) =>
      case ByClose(m) =>
    }
  }

  lemma CallerStaysSubmitted(s: State, id: nat, m: CallerMove)
    requires id in s.ops && CallerEnabled(s, m, s.ops[id]) && !Unsubmitted(s.ops[id])
    ensures var s' := CallerDo(s, id, m, s.ops[id]);
      id in s'.ops && !Unsubmitted(s'.ops[id]) && s'.freed == s.freed
      && (SubmitAfterFree in s'.faults ==> SubmitAfterFree in s.faults)
  {
    hide Deliver;
  }

  lemma {:induction false} NobodySubmits(s: State, steps: seq<Step>)
    requires s.freed && AllSubmitted(s) && Possible(s, steps) && NoBegin(steps)
    ensures SubmitAfterFree in Follow(s, steps).faults ==> SubmitAfterFree in s.faults
    decreases |steps|
  {
    hide AllSubmitted, Do, Enabled;
    if steps != [] {
      assert !steps[0].Begin?;
      StepStaysSubmitted(s, steps[0]);
      NobodySubmits(Do(s, steps[0]), steps[1..]);
    }
  }

  /** What a caller that has begun does next on its way to submitting, when the runtime is freed. */
  function NextMove(op: Op, id: nat): Step
    requires Unsubmitted(op)
  {
    match op.caller
    case Entering => ByEnsure(id, TakeLock)
    case Locked => ByEnsure(id, CheckClosing)
    case SawOpen => ByEnsure(id, StartDrain)
    case Ready => ByCaller(id, Register)
    case _ => ByCaller(id, Submit)
  }

  function Distance(op: Op): nat {
    match op.caller
    case Entering => 4
    case Locked => 3
    case SawOpen => 3
    case Ready => 2
    case _ => 1
  }

  lemma GetsCloser(s: State, id: nat)
    requires s.freed && s.closing && id in s.ops && Unsubmitted(s.ops[id])
    requires s.ops[id].caller.Entering? ==> s.lock.Free?
    ensures var st := NextMove(s.ops[id], id);
      && Enabled(s, st) && Do(s, st).freed && id in Do(s, st).ops
      && (s.ops[id].caller.Registered? ==> SubmitAfterFree in Do(s, st).faults)
      && (!s.ops[id].caller.Registered? ==>
        var op := Do(s, st).ops[id];
        Unsubmitted(op) && !op.caller.Entering? && Distance(op) < Distance(s.ops[id]))
      && Do(s, st).closing == s.closing
  {
  }

  lemma {:induction false} SubmitsLate(s: State, id: nat) returns (steps: seq<Step>)
    requires s.freed && s.closing && id in s.ops && Unsubmitted(s.ops[id])
    requires s.ops[id].caller.Entering? ==> s.lock.Free?
    ensures Possible(s, steps) && NoBegin(steps) && SubmitAfterFree in Follow(s, steps).faults
    decreases Distance(s.ops[id])
  {
    var st := NextMove(s.ops[id], id);
    GetsCloser(s, id);
    var s' := Do(s, st);
    hide Do, Enabled, Distance;
    var rest: seq<Step> := [];
    if !s.ops[id].caller.Registered? { rest := SubmitsLate(s', id); }
    steps := [st] + rest;
    assert steps[1..] == rest;
  }

  /** Without a new operation, somebody still calls the freed runtime. */
  ghost predicate CanSubmitLate(s: State) {
    exists steps :: Possible(s, steps) && NoBegin(steps) && SubmitAfterFree in Follow(s, steps).faults
  }

  /**
   Once the runtime is freed, a call into it is still to come exactly when some caller had begun
   and not yet called the native side.
   */
  lemma LateSubmitExactly(run: seq<State>, n: nat)
    requires Run(run) && n < |run| && run[n].freed && SubmitAfterFree !in run[n].faults
    ensures CanSubmitLate(run[n]) <==> !AllSubmitted(run[n])
  {
    var s := run[n];
    RunKeepsInv(run, n);
    RunHolds(run, n);
    assert s.closing && !s.lock.HeldByClose?;
    if CanSubmitLate(s) && AllSubmitted(s) {
      var steps :| Possible(s, steps) && NoBegin(steps) && SubmitAfterFree in Follow(s, steps).faults;
      NobodySubmits(s, steps);
    }
    if !AllSubmitted(s) {
      var id :| id in s.ops && Unsubmitted(s.ops[id]);
      var who := if s.ops[id].caller.Entering? && s.lock.HeldBy? then s.lock.id else id;
      var steps := SubmitsLate(s, who);
    }
  }

  /**
   A runtime freed while every caller has made its native call, and used for nothing new
   afterwards, is safe from every fault.
   */
  lemma {:induction false} CleanCloseIsSafe(run: seq<State>, k: nat, n: nat)
    requires Run(run) && k <= n < |run| && run[k].freed && SubmitAfterFree !in run[k].faults && AllSubmitted(run[k])
    requires run[n].ops.Keys == run[k].ops.Keys
    ensures run[n].faults == {} && run[n].freed && AllSubmitted(run[n])
    decreases n
  {
    hide Do, Enabled, AllSubmitted, Inv;
    RunIsSafe(run, n);
    if k < n {
      assert Next(run[n - 1], run[n]);
      var st :| Enabled(run[n - 1], st) && run[n] == Do(run[n - 1], st);
      KeysGrow(run, k, n - 1);
      StepGrows(run[n - 1], st);
      CleanCloseIsSafe(run, k, n - 1);
      if !st.Begin? { StepStaysSubmitted(run[n - 1], st); }
    }
  }

  lemma StepGrows(s: State, st: Step)
    requires Enabled(s, st)
    ensures s.ops.Keys <= Do(s, st).ops.Keys
    ensures st.Begin? ==> st.id in Do(s, st).ops && st.id !in s.ops
  {
    hide CallerDo, LateDo, NativeDo, EnsureDo;
    match st {
      case ByEnsure(id, m) => StartFramed(s, id, m, s.ops[id]);
      case ByCaller(id, m) => CallerFramed(s, id, m, s.ops[id]);
      case ByAbandoner(id, m) => AbandonerFramed(s, id, m, s.ops[id]);
      case ByNative(id, m) => DrainFramed(s, id, m, s.ops[id]);
      case _ =>
    }
  }

  lemma {:induction false} KeysGrow(run: seq<State>, k: nat, n: nat)
    requires Run(run) && k <= n < |run|
    ensures run[k].ops.Keys <= run[n].ops.Keys
    decreases n
  {
    hide Do, Enabled;
    if k < n {
      KeysGrow(run, k, n - 1);
      assert Next(run[n - 1], run[n]);
      var st :| Enabled(run[n - 1], st) && run[n] == Do(run[n - 1], st);
      StepGrows(run[n - 1], st);
    }
  }

  /** Before the runtime is freed there is no fault at all. */
  lemma {:induction false} NoFaultBeforeFree(run: seq<State>, n: nat)
    requires Run(run) && n < |run| && !run[n].freed
    ensures run[n].faults == {}
  {
    RunIsSafe(run, n);
    if n > 0 {
      assert Next(run[n - 1], run[n]);
      var st :| Enabled(run[n - 1], st) && run[n] == Do(run[n - 1], st);
      hide Do, Enabled, Inv;
      FaultNeedsFree(run[n - 1], st);
      NoFaultBeforeFree(run, n - 1);
    }
  }

  lemma FaultNeedsFree(s: State, st: Step)
    requires Enabled(s, st)
    ensures !Do(s, st).freed ==> !s.freed
    ensures !s.freed && SubmitAfterFree in Do(s, st).faults ==> SubmitAfterFree in s.faults
  {
    hide CallerDo, LateDo, NativeDo;
    match st {
      case ByCaller(id, m) => CallerFaults(s, id, m); CallerFramed(s, id, m, s.ops[id]);
      case ByAbandoner(id, m) => LateLeaves(s, id, m);
      case ByNative(id, m) => NativeLeaves(s, id, m);
      case _ =>
    }
  }

  lemma CallerFaults(s: State, id: nat, m: CallerMove)
    requires id in s.ops && CallerEnabled(s, m, s.ops[id])
    ensures !s.freed && SubmitAfterFree in CallerDo(s, id, m, s.ops[id]).faults ==> SubmitAfterFree in s.faults
  {
    hide Deliver;
  }

  // ---------- runs that show it ----------

  lemma OneMore(run: seq<State>, st: Step) returns (more: seq<State>)
    requires Run(run) && Enabled(run[|run| - 1], st)
    ensures Run(more) && more == run + [Do(run[|run| - 1], st)]
  {
    more := run + [Do(run[|run| - 1], st)];
    hide Do, Enabled;
    forall i | 0 < i < |more| ensures Next(more[i - 1], more[i]) {
      if i < |run| { assert Next(run[i - 1], run[i]); }
    }
  }

  /** One operation, and all else as at the start, the drain goroutine having started. */
  function Alone(op: Op, active: set<nat>, drain: Drain): State {
    State(map[0 := op], active, Free, false, Open, drain, 1, false, false, {})
  }

  function JustRegistered(kind: Kind): Op { NewOp(kind).(caller := Registered) }

  lemma LooksOpen(kind: Kind) returns (run: seq<State>)
    ensures Run(run) && run[|run| - 1] == INIT.(ops := map[0 := NewOp(kind).(caller := SawOpen)], lock := HeldBy(0))
  {
    var op := NewOp(kind);
    run := [INIT];
    run := OneMore(run, Begin(0, kind));
    assert run[|run| - 1] == INIT.(ops := map[0 := op]);
    run := OneMore(run, ByEnsure(0, TakeLock));
    assert run[|run| - 1] == INIT.(ops := map[0 := op.(caller := Locked)], lock := HeldBy(0));
    run := OneMore(run, ByEnsure(0, CheckClosing));
  }

  lemma Registers(kind: Kind) returns (run: seq<State>)
    ensures Run(run) && run[|run| - 1] == Alone(JustRegistered(kind), {0}, Top)
  {
    hide Run;
    run := LooksOpen(kind);
    run := OneMore(run, ByEnsure(0, StartDrain));
    assert run[|run| - 1] == Alone(NewOp(kind).(caller := Ready), {}, Top);
    run := OneMore(run, ByCaller(0, Register));
  }

  lemma Frees(kind: Kind) returns (run: seq<State>)
    ensures Run(run) && run[|run| - 1] ==
      Alone(JustRegistered(kind), {0}, Exited).(closing := true, stop := true, freed := true, closer := Freed)
  {
    hide Run;
    var op := JustRegistered(kind);
    run := Registers(kind);
    var s := Alone(op, {0}, Top);
    run := OneMore(run, ByClose(CloseSignal));
    run := OneMore(run, ByClose(CloseLock));
    run := OneMore(run, ByClose(CloseStop));
    assert run[|run| - 1] == s.(closing := true, stop := true, closer := AwaitsDrain);
    run := OneMore(run, ByDrain(CheckStop));
    run := OneMore(run, ByClose(CloseDrained));
    run := OneMore(run, ByClose(CloseFree));
    assert Reclaim(op) == op;
  }

  /** `Close` runs to its free between the registration of a handle and the native call. */
  lemma LateSubmitHappens(kind: Kind) returns (run: seq<State>)
    ensures Run(run) && run[|run| - 1].faults == {SubmitAfterFree}
  {
    hide Run;
    run := Frees(kind);
    run := OneMore(run, ByCaller(0, Submit));
  }

  const PAYLOAD := Item(true, false)

  lemma CompletesAtOnce() returns (run: seq<State>)
    ensures Run(run) && run[|run| - 1]
      == Alone(NewOp(Box).(caller := Waiting, native := Taken, dispatch := AtValue(PAYLOAD), claims := 1, produced := 1), {}, Busy(0))
  {
    var op := NewOp(Box).(caller := Waiting, native := Running);
    run := Registers(Box);
    run := OneMore(run, ByCaller(0, Submit));
    assert run[|run| - 1] == Alone(op, {0}, Top);
    run := OneMore(run, ByNative(0, Complete(PAYLOAD)));
    op := op.(native := Queued(PAYLOAD), produced := 1);
    assert run[|run| - 1] == Alone(op, {0}, Top);
    run := OneMore(run, ByDrain(CheckStop));
    run := OneMore(run, ByDrain(CallDrain));
    assert run[|run| - 1] == Alone(op, {0}, InNative);
    run := OneMore(run, ByNative(0, TakeEvent));
    op := op.(native := Taken, dispatch := AtClaim(PAYLOAD));
    assert run[|run| - 1] == Alone(op, {0}, Busy(0));
    run := OneMore(run, ByNative(0, DispatchClaim));
    assert {0} - {0} == {};
  }

  /** The runtime closes while the completion is being dispatched: nobody ends up with the payload. */
  lemma BoxPayloadIsLost() returns (run: seq<State>)
    ensures Run(run)
    ensures var s := run[|run| - 1];
      && 0 in s.ops && s.ops[0].kind.Box? && Settled(s.ops[0]) && s.closing && s.faults == {}
      && s.ops[0].produced == 1 && Ends(s.ops[0]) == 0
  {
    run := CompletesAtOnce();
    var s := run[|run| - 1].(closing := true, closer := Signalled);
    var op := s.ops[0];
    run := OneMore(run, ByClose(CloseSignal));
    assert run[|run| - 1] == s;
    run := OneMore(run, ByCaller(0, SeesClosing));
    run := OneMore(run, ByCaller(0, Abandon));
    op := op.(caller := Returned, abandoner := Select);
    assert run[|run| - 1] == s.(ops := map[0 := op]);
    run := OneMore(run, ByAbandoner(0, LateClosing));
    run := OneMore(run, ByAbandoner(0, LateClaim));
    run := OneMore(run, ByAbandoner(0, LateCleanup));
    op := op.(abandoner := Finished);
    assert run[|run| - 1] == s.(ops := map[0 := op]);
    run := OneMore(run, ByNative(0, DispatchValue));
    run := OneMore(run, ByNative(0, DispatchSend));
    op := op.(dispatch := AtDelete, channel := Some(PAYLOAD), sends := 1);
    assert run[|run| - 1] == s.(ops := map[0 := op]);
    run := OneMore(run, ByNative(0, DispatchDelete));
  }

  // ---------- when a payload of Create or Get is lost ----------

  /** The goroutine of `abandonAsync` left its select through the closing branch. */
  ghost predicate LeftByClosing(run: seq<State>, n: nat, id: nat)
    requires n < |run|
  {
    exists i :: 0 <= i <= n && id in run[i].ops && run[i].ops[id].abandoner == Claiming(None)
  }

  predicate PayloadAhead(op: Op) {
    op.native.Absent? || op.native.Running? || op.native.Queued?
    || op.dispatch.AtClaim? || op.dispatch.AtValue? || op.dispatch.AtSend? || op.channel.Some?
  }

  /** What is known of an operation whose goroutine has, or has not, left through the closing branch. */
  predicate History(op: Op, left: bool) {
    && (left ==> (op.abandoner in {Claiming(None), Deleting(None), Cleanup(None), Finished})
                 && (op.sends == 1 ==> op.channel.Some?))
    && (!left ==> op.abandoner !in {Claiming(None), Deleting(None), Cleanup(None)}
                  && (op.abandoner.Finished? ==> op.channel.None? && op.sends == 1))
    && (op.sends == 1 && (op.caller.Waiting? || op.caller.Abandoning? || op.abandoner.Select?) ==> op.channel.Some?)
    && (PayloadAhead(op) ==> Ends(op) == 0)
  }

  lemma CallerHistory(s: State, id: nat, m: CallerMove, left: bool)
    requires id in s.ops && CallerEnabled(s, m, s.ops[id]) && OpInv(s.ops[id], id in s.active, s.closing)
    requires History(s.ops[id], left)
    ensures var s' := CallerDo(s, id, m, s.ops[id]); id in s'.ops && History(s'.ops[id], left)
  {
    hide ClaimInv, PayloadInv;
  }

  lemma LateHistory(s: State, id: nat, m: LateMove, left: bool)
    requires id in s.ops && LateEnabled(s, m, s.ops[id]) && OpInv(s.ops[id], id in s.active, s.closing)
    requires History(s.ops[id], left)
    ensures var s' := LateDo(s, id, m, s.ops[id]);
      id in s'.ops && History(s'.ops[id], left || s'.ops[id].abandoner == Claiming(None))
  {
    hide ClaimInv, PayloadInv;
  }

  lemma NativeHistory(s: State, id: nat, m: NativeMove, left: bool)
    requires id in s.ops && NativeEnabled(s, m, s.ops[id]) && OpInv(s.ops[id], id in s.active, s.closing)
    requires History(s.ops[id], left)
    ensures var s' := NativeDo(s, id, m, s.ops[id]); id in s'.ops && History(s'.ops[id], left)
  {
    hide ClaimInv, PayloadInv;
  }

  lemma ReclaimHistory(op: Op, live: bool, closing: bool, left: bool)
    requires OpInv(op, live, closing) && History(op, left)
    ensures History(Reclaim(op), left)
  {
    hide ClaimInv, PayloadInv;
  }

  lemma EnsureHistory(s: State, id: nat, m: EnsureMove, left: bool)
    requires id in s.ops && EnsureEnabled(s, m, s.ops[id]) && OpInv(s.ops[id], id in s.active, s.closing)
    requires History(s.ops[id], left)
    ensures var s' := EnsureDo(s, id, m, s.ops[id]); id in s'.ops && History(s'.ops[id], left)
  {
    hide PayloadInv, ChannelInv, Waiters;
  }

  lemma UnchangedHistory(op: Op, left: bool)
    requires History(op, left)
    ensures op.abandoner == Claiming(None) ==> left
  {
  }

  lemma StepHistory(s: State, st: Step, id: nat, left: bool)
    requires Inv(s) && Enabled(s, st) && id in s.ops && History(s.ops[id], left)
    ensures id in Do(s, st).ops
    ensures var op := Do(s, st).ops[id]; History(op, left || op.abandoner == Claiming(None))
  {
    hide OpInv, CallerDo, LateDo, NativeDo, EnsureDo, History, Reclaim;
    assert OpPlace(s, id);
    UnchangedHistory(s.ops[id], left);
    match st {
      case ByEnsure(i, m) =>
        StartFramed(s, i, m, s.ops[i]);
        if i == id { EnsureHistory(s, i, m, left); UnchangedHistory(Do(s, st).ops[id], left); }
      case ByCaller(i, m) =>
        CallerFramed(s, i, m, s.ops[i]);
        if i == id { CallerHistory(s, i, m, left); UnchangedHistory(Do(s, st).ops[id], left); }
      case ByAbandoner(i, m) =>
        AbandonerFramed(s, i, m, s.ops[i]);
        if i == id { LateHistory(s, i, m, left); }
      case ByNative(i, m) =>
        DrainFramed(s, i, m, s.ops[i]);
        if i == id { NativeHistory(s, i, m, left); UnchangedHistory(Do(s, st).ops[id], left); }
      case ByClose(m) =>
        ReclaimHistory(s.ops[id], id in s.active, s.closing, left);
        UnchangedHistory(Reclaim(s.ops[id]), left);
      case _ =>
    }
  }

  lemma NewHistory(kind: Kind)
    ensures History(NewOp(kind), false) && !NewOp(kind).abandoner.Claiming?
  {
  }

  lemma LeftSoFar(run: seq<State>, n: nat, id: nat)
    requires 0 < n < |run|
    ensures LeftByClosing(run, n, id) <==>
      LeftByClosing(run, n - 1, id) || (id in run[n].ops && run[n].ops[id].abandoner == Claiming(None))
  {
  }

  lemma {:induction false} RunHistory(run: seq<State>, n: nat, id: nat)
    requires Run(run) && n < |run|
    ensures id !in run[n].ops ==> !LeftByClosing(run, n, id)
    ensures id in run[n].ops ==> History(run[n].ops[id], LeftByClosing(run, n, id))
  {
    if n == 0 {
      assert id !in INIT.ops;
    } else {
      hide Inv, Do, Enabled, History, LeftByClosing;
      RunHistory(run, n - 1, id);
      RunKeepsInv(run, n - 1);
      assert Next(run[n - 1], run[n]);
      LeftSoFar(run, n, id);
      var st :| Enabled(run[n - 1], st) && run[n] == Do(run[n - 1], st);
      if id in run[n - 1].ops {
        StepHistory(run[n - 1], st, id, LeftByClosing(run, n - 1, id));
      } else if id in run[n].ops {
        BeginsFresh(run[n - 1], st, id);
      }
    }
  }

  lemma BeginsFresh(s: State, st: Step, id: nat)
    requires Enabled(s, st) && id !in s.ops && id in Do(s, st).ops
    ensures History(Do(s, st).ops[id], false) && !Do(s, st).ops[id].abandoner.Claiming?
  {
    hide CallerDo, LateDo, NativeDo, EnsureDo, History;
    match st {
      case Begin(_, kind) => NewHistory(kind);
      case ByEnsure(i, m) => StartFramed(s, i, m, s.ops[i]);
      case ByCaller(i, m) => CallerFramed(s, i, m, s.ops[i]);
      case ByAbandoner(i, m) => AbandonerFramed(s, i, m, s.ops[i]);
      case ByNative(i, m) => DrainFramed(s, i, m, s.ops[i]);
      case _ =>
    }
  }

  /**
   A settled operation lost its payload exactly when its goroutine left through the closing
   branch and the drain goroutine delivered a payload all the same.
   */
  lemma BoxPayloadLostExactly(run: seq<State>, n: nat, id: nat)
    requires Run(run) && n < |run| && id in run[n].ops && Settled(run[n].ops[id])
    ensures var op := run[n].ops[id];
      Ends(op) < op.produced <==> LeftByClosing(run, n, id) && op.sends == 1 && op.produced == 1
  {
    RunHistory(run, n, id);
    RunKeepsInv(run, n);
    assert OpPlace(run[n], id);
    hide LeftByClosing, Inv;
  }

  /** And that takes a closing runtime. */
  lemma LeavingTakesClosing(run: seq<State>, n: nat, id: nat)
    requires Run(run) && n < |run| && LeftByClosing(run, n, id)
    ensures run[n].closing
  {
    var i :| 0 <= i <= n && id in run[i].ops && run[i].ops[id].abandoner == Claiming(None);
    RunKeepsInv(run, i);
    assert OpPlace(run[i], id);
    ClosingLasts(run, i, n);
  }

  lemma {:induction false} ClosingLasts(run: seq<State>, i: nat, n: nat)
    requires Run(run) && i <= n < |run| && run[i].closing
    ensures run[n].closing
    decreases n
  {
    hide Do, Enabled;
    if i < n {
      ClosingLasts(run, i, n - 1);
      assert Next(run[n - 1], run[n]);
      var st :| Enabled(run[n - 1], st) && run[n] == Do(run[n - 1], st);
      StepStaysClosing(run[n - 1], st);
    }
  }

  lemma StepStaysClosing(s: State, st: Step)
    requires Enabled(s, st) && s.closing
    ensures Do(s, st).closing
  {
    hide CallerDo, LateDo, NativeDo, EnsureDo;
    match st {
      case ByEnsure(i, m) => StartFramed(s, i, m, s.ops[i]);
      case ByCaller(i, m) => CallerFramed(s, i, m, s.ops[i]);
      case ByAbandoner(i, m) => AbandonerFramed(s, i, m, s.ops[i]);
      case ByNative(i, m) => DrainFramed(s, i, m, s.ops[i]);
      case _ =>
    }
  }
}
