/** What becomes of a result: who is handed it, what is disposed of, and that a waiting caller gets one. */
module HandleResults {
  import opened Prelude
  import opened HandleProtocol
  import opened HandleSafety
  import opened HandleRaces

  lemma LastStep(run: seq<State>, n: nat) returns (st: Step)
    requires Run(run) && 0 < n < |run|
    ensures Enabled(run[n - 1], st) && run[n] == Do(run[n - 1], st)
  {
    hide Enabled, Do;
    assert Next(run[n - 1], run[n]);
    st :| Enabled(run[n - 1], st) && run[n] == Do(run[n - 1], st);
  }

  // ---------- a caller that received its result ----------

  /** Create, Get and Import give the caller what succeeded; Export frees its path; a failure gives nothing. */
  predicate EndsAs(op: Op, item: Item) {
    && (item.payload && !item.failed && (op.kind.Box? || op.kind.Import?) ==>
          op.handed == 1 && op.disposed == 0 && op.dropped == 0)
    && (item.payload && (op.kind.Export? || item.failed) ==> op.handed == 0 && op.disposed == 1 && op.dropped == 0)
    && (item.failed || !item.payload ==> op.handed == 0)
  }

  predicate Obtained(op: Op, item: Item) {
    || op.caller == Received(item)
    || (op.caller.Returned? && op.abandoner.NoGoroutine? && op.native.Taken? && op.channel.None?
        && (op.dispatch.Idle? || op.dispatch.AtDelete?) && EndsAs(op, item))
  }

  lemma ReturnObtains(op: Op, live: bool, closing: bool, freed: bool)
    requires OpInv(op, live, closing) && EndsRightly(op, freed) && op.caller.Received?
    ensures Obtained(Deliver(op, op.caller.item).(caller := Returned), op.caller.item)
  {
    hide ClaimInv;
  }

  lemma CallerObtained(s: State, id: nat, m: CallerMove, item: Item)
    requires id in s.ops && CallerEnabled(s, m, s.ops[id]) && Obtained(s.ops[id], item)
    requires OpInv(s.ops[id], id in s.active, s.closing) && EndsRightly(s.ops[id], s.freed)
    ensures var s' := CallerDo(s, id, m, s.ops[id]); id in s'.ops && Obtained(s'.ops[id], item)
  {
    if m.Return? { ReturnObtains(s.ops[id], id in s.active, s.closing, s.freed); }
    hide OpInv, EndsRightly, Deliver;
  }

  lemma LateNotObtained(s: State, id: nat, m: LateMove, item: Item)
    requires id in s.ops && LateEnabled(s, m, s.ops[id]) && OpInv(s.ops[id], id in s.active, s.closing)
    ensures !Obtained(s.ops[id], item)
  {
    hide ClaimInv, ChannelInv, PayloadInv;
  }

  lemma NativeObtained(s: State, id: nat, m: NativeMove, item: Item)
    requires id in s.ops && NativeEnabled(s, m, s.ops[id]) && Obtained(s.ops[id], item)
    requires OpInv(s.ops[id], id in s.active, s.closing)
    ensures var s' := NativeDo(s, id, m, s.ops[id]); id in s'.ops && Obtained(s'.ops[id], item)
  {
    hide ClaimInv, PayloadInv;
  }

  lemma StepObtained(s: State, st: Step, id: nat, item: Item)
    requires Inv(s) && AllEndRightly(s) && Enabled(s, st) && id in s.ops && Obtained(s.ops[id], item)
    ensures id in Do(s, st).ops && Obtained(Do(s, st).ops[id], item)
  {
    hide OpInv, CallerDo, LateDo, NativeDo, EnsureDo, EndsRightly, Obtained;
    assert OpPlace(s, id);
    match st {
      case ByEnsure(i, m) =>
        StartFramed(s, i, m, s.ops[i]);
        if i == id { EnsureNotObtained(s, i, m, item); }
      case ByCaller(i, m) => CallerFramed(s, i, m, s.ops[i]); if i == id { CallerObtained(s, i, m, item); }
      case ByAbandoner(i, m) => AbandonerFramed(s, i, m, s.ops[i]); if i == id { LateNotObtained(s, i, m, item); }
      case ByNative(i, m) => DrainFramed(s, i, m, s.ops[i]); if i == id { NativeObtained(s, i, m, item); }
      case ByClose(m) => ReclaimObtains(s.ops[id], id in s.active, s.closing, item);
      case _ =>
    }
  }

  lemma EnsureNotObtained(s: State, id: nat, m: EnsureMove, item: Item)
    requires id in s.ops && EnsureEnabled(s, m, s.ops[id])
    ensures !Obtained(s.ops[id], item)
  {
  }

  lemma ReclaimObtains(op: Op, live: bool, closing: bool, item: Item)
    requires OpInv(op, live, closing) && Obtained(op, item)
    ensures Obtained(Reclaim(op), item)
  {
    hide ClaimInv, PayloadInv;
  }

  lemma ObtainedNext(run: seq<State>, n: nat, id: nat, item: Item)
    requires Run(run) && 0 < n < |run| && id in run[n - 1].ops && Obtained(run[n - 1].ops[id], item)
    ensures id in run[n].ops && Obtained(run[n].ops[id], item)
  {
    hide Run, Inv, Do, Enabled, Obtained, AllEndRightly;
    RunKeepsInv(run, n - 1);
    RunEndsRightly(run, n - 1);
    var st := LastStep(run, n);
    StepObtained(run[n - 1], st, id, item);
  }

  lemma {:induction false} StaysObtained(run: seq<State>, m: nat, n: nat, id: nat, item: Item)
    requires Run(run) && m <= n < |run| && id in run[m].ops && Obtained(run[m].ops[id], item)
    ensures id in run[n].ops && Obtained(run[n].ops[id], item)
    decreases n
  {
    hide Run, Obtained;
    if m < n {
      StaysObtained(run, m, n - 1, id, item);
      ObtainedNext(run, n, id, item);
    }
  }

  /**
   A caller that received its result and has returned: a Create, Get or Import that succeeded
   handed its payload over, once, and nothing was disposed of; an Export, or a failed Import that
   carried a payload, disposed of it, once; and no failure ever handed anything over.
   */
  lemma ReceivedIsHanded(run: seq<State>, m: nat, n: nat, id: nat, item: Item)
    requires Run(run) && m <= n < |run| && id in run[m].ops && run[m].ops[id].caller == Received(item)
    ensures id in run[n].ops
    ensures var op := run[n].ops[id];
      op.caller.Returned? ==>
        && (item == Item(true, false) && (op.kind.Box? || op.kind.Import?) ==>
              op.handed == 1 && op.disposed == 0 && op.dropped == 0)
        && (item.payload && (op.kind.Export? || item.failed) ==> op.handed == 0 && op.disposed == 1 && op.dropped == 0)
        && (item.failed || !item.payload ==> op.handed == 0)
  {
    hide Run;
    StaysObtained(run, m, n, id, item);
  }

  // ---------- what a caller receives is what the native side completed with ----------

  predicate Carries(op: Op, item: Item) {
    || op.native == Queued(item)
    || op.dispatch in {AtClaim(item), AtValue(item), AtSend(item)}
    || op.channel == Some(item)
    || op.caller == Received(item)
    || op.abandoner in {Claiming(Some(item)), Deleting(Some(item)), Cleanup(Some(item))}
  }

  ghost predicate WasQueued(run: seq<State>, n: nat, id: nat, item: Item)
    requires n < |run|
  {
    exists i :: 0 <= i <= n && id in run[i].ops && run[i].ops[id].native == Queued(item)
  }

  lemma CallerCarries(s: State, id: nat, m: CallerMove, item: Item)
    requires id in s.ops && CallerEnabled(s, m, s.ops[id])
    ensures var s' := CallerDo(s, id, m, s.ops[id]); id in s'.ops && (Carries(s'.ops[id], item) ==> Carries(s.ops[id], item))
  {
    hide Deliver;
    if m.Return? { DeliverLeaves(s.ops[id], s.ops[id].caller.item); }
  }

  lemma DeliverLeaves(op: Op, item: Item)
    ensures var op' := Deliver(op, item);
      && op'.native == op.native && op'.dispatch == op.dispatch && op'.channel == op.channel && op'.abandoner == op.abandoner
  {
  }

  lemma LateCarries(s: State, id: nat, m: LateMove, item: Item)
    requires id in s.ops && LateEnabled(s, m, s.ops[id])
    ensures var s' := LateDo(s, id, m, s.ops[id]); id in s'.ops && (Carries(s'.ops[id], item) ==> Carries(s.ops[id], item))
  {
  }

  lemma NativeCarries(s: State, id: nat, m: NativeMove, item: Item)
    requires id in s.ops && NativeEnabled(s, m, s.ops[id])
    ensures var s' := NativeDo(s, id, m, s.ops[id]);
      id in s'.ops && (Carries(s'.ops[id], item) ==> Carries(s.ops[id], item) || s'.ops[id].native == Queued(item))
  {
  }

  lemma StepCarries(s: State, st: Step, id: nat, item: Item)
    requires Enabled(s, st) && id in Do(s, st).ops && Carries(Do(s, st).ops[id], item)
    ensures (id in s.ops && Carries(s.ops[id], item)) || Do(s, st).ops[id].native == Queued(item)
  {
    hide CallerDo, LateDo, NativeDo, EnsureDo, Carries;
    match st {
      case Begin(_, kind) => NewCarries(kind, item);
      case ByEnsure(i, m) => StartFramed(s, i, m, s.ops[i]); if i == id { EnsureCarries(s, i, m, item); }
      case ByCaller(i, m) => CallerFramed(s, i, m, s.ops[i]); if i == id { CallerCarries(s, i, m, item); }
      case ByAbandoner(i, m) => AbandonerFramed(s, i, m, s.ops[i]); if i == id { LateCarries(s, i, m, item); }
      case ByNative(i, m) => DrainFramed(s, i, m, s.ops[i]); if i == id { NativeCarries(s, i, m, item); }
      case ByClose(m) => ReclaimCarries(s.ops[id], item);
      case _ =>
    }
  }

  lemma NewCarries(kind: Kind, item: Item)
    ensures !Carries(NewOp(kind), item)
  {
  }

  lemma EnsureCarries(s: State, id: nat, m: EnsureMove, item: Item)
    requires id in s.ops && EnsureEnabled(s, m, s.ops[id])
    ensures var s' := EnsureDo(s, id, m, s.ops[id]); id in s'.ops && (Carries(s'.ops[id], item) ==> Carries(s.ops[id], item))
  {
  }

  lemma ReclaimCarries(op: Op, item: Item)
    ensures Carries(Reclaim(op), item) ==> Carries(op, item)
  {
  }

  lemma QueuedSoFar(run: seq<State>, n: nat, id: nat, item: Item)
    requires n < |run|
    ensures id in run[n].ops && run[n].ops[id].native == Queued(item) ==> WasQueued(run, n, id, item)
    ensures n > 0 && WasQueued(run, n - 1, id, item) ==> WasQueued(run, n, id, item)
  {
  }

  lemma {:induction false} CarriedWasQueued(run: seq<State>, n: nat, id: nat, item: Item)
    requires Run(run) && n < |run| && id in run[n].ops && Carries(run[n].ops[id], item)
    ensures WasQueued(run, n, id, item)
  {
    hide Run, Do, Enabled, Carries, WasQueued;
    QueuedSoFar(run, n, id, item);
    if n == 0 {
      NothingAtFirst(run, id);
    } else if run[n].ops[id].native != Queued(item) {
      var st := LastStep(run, n);
      StepCarries(run[n - 1], st, id, item);
      CarriedWasQueued(run, n - 1, id, item);
    }
  }

  lemma NothingAtFirst(run: seq<State>, id: nat)
    requires Run(run)
    ensures id !in run[0].ops
  {
  }

  /** The result a caller receives, success or failure, is the one its native task completed with. */
  lemma ReceivedWasCompleted(run: seq<State>, n: nat, id: nat)
    requires Run(run) && n < |run| && id in run[n].ops && run[n].ops[id].caller.Received?
    ensures exists i :: 0 <= i <= n && id in run[i].ops && run[i].ops[id].native == Queued(run[n].ops[id].caller.item)
  {
    hide Run;
    CarriedWasQueued(run, n, id, run[n].ops[id].caller.item);
  }

  // ---------- a caller that gave up ----------

  predicate GaveUp(op: Op) { op.handed == 0 && (op.caller.Abandoning? || op.caller.OwnDelete? || op.caller.Returned?) }

  lemma CallerGaveUp(s: State, id: nat, m: CallerMove)
    requires id in s.ops && CallerEnabled(s, m, s.ops[id]) && GaveUp(s.ops[id])
    ensures var s' := CallerDo(s, id, m, s.ops[id]); id in s'.ops && GaveUp(s'.ops[id])
  {
    hide Deliver;
  }

  lemma LateGaveUp(s: State, id: nat, m: LateMove)
    requires id in s.ops && LateEnabled(s, m, s.ops[id]) && GaveUp(s.ops[id])
    ensures var s' := LateDo(s, id, m, s.ops[id]); id in s'.ops && GaveUp(s'.ops[id])
  {
  }

  lemma NativeGaveUp(s: State, id: nat, m: NativeMove)
    requires id in s.ops && NativeEnabled(s, m, s.ops[id]) && GaveUp(s.ops[id])
    ensures var s' := NativeDo(s, id, m, s.ops[id]); id in s'.ops && GaveUp(s'.ops[id])
  {
  }

  lemma StepGaveUp(s: State, st: Step, id: nat)
    requires Enabled(s, st) && id in s.ops && GaveUp(s.ops[id])
    ensures id in Do(s, st).ops && GaveUp(Do(s, st).ops[id])
  {
    hide CallerDo, LateDo, NativeDo, EnsureDo;
    match st {
      case ByEnsure(i, m) => StartFramed(s, i, m, s.ops[i]);
      case ByCaller(i, m) => CallerFramed(s, i, m, s.ops[i]); if i == id { CallerGaveUp(s, i, m); }
      case ByAbandoner(i, m) => AbandonerFramed(s, i, m, s.ops[i]); if i == id { LateGaveUp(s, i, m); }
      case ByNative(i, m) => DrainFramed(s, i, m, s.ops[i]); if i == id { NativeGaveUp(s, i, m); }
      case _ =>
    }
  }

  lemma {:induction false} StaysGivenUp(run: seq<State>, m: nat, n: nat, id: nat)
    requires Run(run) && m <= n < |run| && id in run[m].ops && run[m].ops[id].caller.Abandoning?
    ensures id in run[n].ops && GaveUp(run[n].ops[id])
    decreases n
  {
    if m < n {
      hide Run, Do, Enabled, GaveUp;
      StaysGivenUp(run, m, n - 1, id);
      var st := LastStep(run, n);
      StepGaveUp(run[n - 1], st, id);
    } else {
      RunEndsRightly(run, n);
      assert EndsRightly(run[n].ops[id], run[n].freed);
    }
  }

  /**
   A caller that gave up is handed nothing. Once the operation has settled, its payload has been
   disposed of if the runtime was not closed; for Export and Import, disposed of or dropped with
   the native queue in any case.
   */
  lemma GivenUpIsDisposed(run: seq<State>, m: nat, n: nat, id: nat)
    requires Run(run) && m <= n < |run| && id in run[m].ops && run[m].ops[id].caller.Abandoning?
    ensures id in run[n].ops && run[n].ops[id].handed == 0
    ensures var op := run[n].ops[id];
      && (Settled(op) && !run[n].closing ==> op.disposed == op.produced && op.dropped == 0)
      && (Settled(op) && (op.kind.Export? || op.kind.Import?) ==> op.disposed + op.dropped == op.produced)
  {
    StaysGivenUp(run, m, n, id);
    RunKeepsInv(run, n);
    RunEndsRightly(run, n);
    hide Run, OpInv;
    var op := run[n].ops[id];
    assert EndsRightly(op, run[n].freed);
    if Settled(op) && !run[n].closing { BoxPayloadConserved(run, n, id); }
    if Settled(op) && Owned(op.kind) { OwnedPayloadConserved(run, n, id); }
  }
}
