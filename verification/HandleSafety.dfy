/** What every run of the handle protocol keeps. */
module HandleSafety {
  import opened Prelude
  import opened HandleProtocol

  // ---------- one operation ----------

  predicate Live(op: Op) { !op.caller.Entering? && !op.caller.Locked? && !op.caller.SawOpen? && !op.caller.Ready? }

  /** The threads that won the claim on this handle and have yet to delete it. */
  function Claimers(op: Op): nat {
    One(op.caller.FailDelete?) + One(op.caller.OwnDelete?) + One(op.abandoner.Deleting?)
    + One(op.dispatch.AtValue? || op.dispatch.AtSend? || op.dispatch.AtDelete?)
  }

  function Carried(i: Item): nat { One(i.payload) }

  function CarriedIf(o: Option<Item>): nat { if o.Some? then Carried(o.value) else 0 }

  /** Payloads of this operation that somebody still holds. */
  function InFlight(op: Op): nat {
    (if op.native.Queued? then Carried(op.native.item) else 0)
    + (if op.dispatch.AtClaim? || op.dispatch.AtValue? || op.dispatch.AtSend? then Carried(op.dispatch.item) else 0)
    + CarriedIf(op.channel)
    + (if op.caller.Received? then Carried(op.caller.item) else 0)
    + (if op.abandoner.Claiming? || op.abandoner.Deleting? || op.abandoner.Cleanup? then CarriedIf(op.abandoner.got) else 0)
  }

  predicate ItemsOk(op: Op) {
    && (op.native.Queued? ==> Postable(op.kind, op.native.item))
    && (op.dispatch.AtClaim? || op.dispatch.AtValue? || op.dispatch.AtSend? ==> Postable(op.kind, op.dispatch.item))
    && (op.channel.Some? ==> Postable(op.kind, op.channel.value))
    && (op.caller.Received? ==> Postable(op.kind, op.caller.item))
    && ((op.abandoner.Claiming? || op.abandoner.Deleting? || op.abandoner.Cleanup?) && op.abandoner.got.Some?
        ==> Postable(op.kind, op.abandoner.got.value))
  }

  /** Who may still be waiting for a result, and who may not. */
  predicate Waiters(op: Op, live: bool, closing: bool) {
    && (!op.abandoner.NoGoroutine? ==> op.caller.Returned?)
    && (Owned(op.kind) ==> !op.abandoner.Claiming? && !op.abandoner.Deleting?)
    && (Owned(op.kind) && op.abandoner.Cleanup? ==> op.abandoner.got.Some?)
    && (Owned(op.kind) && op.abandoner.Select? ==> op.channel.Some? || op.dispatch.AtValue? || op.dispatch.AtSend?)
    && (Owned(op.kind) && (op.abandoner.Cleanup? || op.abandoner.Finished?) ==> op.sends == 1 && op.channel.None?)
    && (op.caller.Received? ==> op.sends == 1 && op.channel.None?)
    && ((op.abandoner.Claiming? || op.abandoner.Deleting? || op.abandoner.Cleanup?) && op.abandoner.got.Some?
        ==> op.sends == 1 && op.channel.None?)
    && ((op.abandoner.Claiming? || op.abandoner.Deleting? || op.abandoner.Cleanup?) && op.abandoner.got.None? ==> closing)
    && (op.abandoner.Finished? && !closing ==> op.sends == 1 && op.channel.None?)
    && (op.caller.OwnDelete? ==> Owned(op.kind))
    // a caller that gave up by itself, or failed to submit, won the claim
    && (op.caller.Registered? || op.caller.Failing? || op.caller.FailDelete? ==> op.native.Absent?)
    && (op.caller.Registered? || op.caller.Failing? ==> live)
    && (op.caller.OwnDelete? ==> op.sends == 0 && op.channel.None? && !op.dispatch.AtValue? && !op.dispatch.AtSend?)
    && (op.caller.Returned? && op.abandoner.NoGoroutine? ==> op.channel.None? && !op.dispatch.AtValue? && !op.dispatch.AtSend?)
    && ((op.caller.Waiting? || op.caller.Abandoning?) && !live
        ==> op.channel.Some? || op.dispatch.AtValue? || op.dispatch.AtSend?)
    && (live ==> op.sends == 0 && !op.caller.Received? && !op.caller.FailDelete? && !op.caller.OwnDelete?)
    && (live && op.caller.Returned? ==> op.abandoner.Select? || op.abandoner.Claiming?)
  }

  predicate Untouched(op: Op) {
    && op.abandoner.NoGoroutine? && op.native.Absent? && op.dispatch.Idle? && op.channel.None?
    && op.claims == op.deletes == op.sends == op.produced == op.handed == op.disposed == op.dropped == 0
  }

  /** Exactly one of: in the registry, or claimed; claimed handles are deleted or about to be. */
  predicate ClaimInv(op: Op, live: bool) {
    && (!Live(op) ==> Untouched(op) && !live)
    && (Live(op) ==> One(live) + op.claims == 1)
    && op.claims == op.deletes + Claimers(op)
  }

  predicate ChannelInv(op: Op) {
    && op.sends <= 1 && (op.channel.Some? ==> op.sends == 1)
    && (op.dispatch.AtClaim? || op.dispatch.AtValue? || op.dispatch.AtSend? || !op.native.Taken? ==> op.sends == 0)
    && (!op.native.Taken? ==> op.dispatch.Idle?)
  }

  /** Every payload made is in one hand, or has met one end. */
  predicate PayloadInv(op: Op) {
    && (op.native.Absent? || op.native.Running? ==> op.produced == 0)
    && op.produced <= 1
    && op.produced == InFlight(op) + op.handed + op.disposed + op.dropped
    && ItemsOk(op)
  }

  predicate OpInv(op: Op, live: bool, closing: bool) {
    ClaimInv(op, live) && ChannelInv(op) && PayloadInv(op) && Waiters(op, live, closing)
  }

  // ---------- all of them, and Close ----------

  predicate Released(s: State) { s.closer.AwaitsDrain? || s.closer.FreeNext? || s.closer.Freed? || s.closer.Closed? }

  predicate DrainInv(s: State) {
    && (s.closing <==> !s.closer.Open?)
    && (s.freed <==> s.closer.Freed? || s.closer.Closed?)
    && (s.closer.AwaitsDrain? ==> s.stop && !s.drain.NotStarted?)
    && (s.closer.FreeNext? || s.closer.Freed? || s.closer.Closed? ==> s.drain.NotStarted? || s.drain.Exited?)
    && (s.lock.HeldByClose? <==> s.closer.HoldsLock?)
    && s.starts == One(!s.drain.NotStarted?)
  }

  predicate OpPlace(s: State, id: nat)
    requires id in s.ops
  {
    var op := s.ops[id];
    && OpInv(op, id in s.active, s.closing)
    && (s.freed ==> !op.native.Running? && !op.native.Queued?)
    && (!op.dispatch.Idle? <==> s.drain == Busy(id))
    && (op.caller.Locked? || op.caller.SawOpen? ==> s.lock == HeldBy(id))
    && (op.caller.SawOpen? ==> !Released(s))
  }

  ghost predicate Inv(s: State) {
    && DrainInv(s)
    && s.faults <= {SubmitAfterFree}
    && (forall id :: id in s.active ==> id in s.ops)
    && (s.lock.HeldBy? ==> s.lock.id in s.ops)
    && (s.drain.Busy? ==> s.drain.id in s.ops)
    && (forall id :: id in s.ops ==> OpPlace(s, id))
  }

  // ---------- each move of one operation, on its own ----------

  lemma EnsureKeeps(op: Op, live: bool, entered: bool, closing: bool)
    requires OpInv(op, live, closing) && entered && !Live(op)
    ensures !live
    ensures OpInv(op.(caller := Locked), live, closing) && OpInv(op.(caller := SawOpen), live, closing)
    ensures OpInv(op.(caller := Ready), live, closing) && OpInv(op.(caller := Registered), entered, closing)
  {
  }

  lemma SubmitKeeps(op: Op, live: bool, closing: bool)
    requires OpInv(op, live, closing) && op.caller.Registered?
    ensures OpInv(op.(caller := Waiting, native := Running), live, closing)
    ensures OpInv(op.(caller := Waiting, native := Reclaimed), live, closing)
    ensures OpInv(op.(caller := Failing), live, closing)
  {
  }

  lemma FailureKeeps(op: Op, live: bool, gone: bool, closing: bool)
    requires OpInv(op, live, closing) && !gone
    ensures op.caller.Failing? ==> live && OpInv(op.(caller := FailDelete, claims := op.claims + 1), gone, closing)
    ensures op.caller.FailDelete? ==> op.deletes == 0 && OpInv(op.(caller := Returned, deletes := op.deletes + 1), live, closing)
  {
  }

  lemma WaitKeeps(op: Op, live: bool, closing: bool)
    requires OpInv(op, live, closing) && op.caller.Waiting?
    ensures OpInv(op.(caller := Abandoning), live, closing)
    ensures op.channel.Some? ==> OpInv(op.(caller := Received(op.channel.value), channel := None), live, closing)
  {
  }

  lemma ReturnKeeps(op: Op, live: bool, closing: bool)
    requires OpInv(op, live, closing) && op.caller.Received?
    ensures OpInv(Deliver(op, op.caller.item).(caller := Returned), live, closing)
  {
  }

  lemma AbandonKeeps(op: Op, live: bool, gone: bool, closing: bool)
    requires OpInv(op, live, closing) && !gone && op.caller.Abandoning?
    ensures (Owned(op.kind) ==> !live) ==> OpInv(op.(caller := Returned, abandoner := Select), live, closing)
    ensures Owned(op.kind) && live ==> OpInv(op.(caller := OwnDelete, claims := op.claims + 1), gone, closing)
  {
  }

  lemma OwnDeleteKeeps(op: Op, live: bool, closing: bool)
    requires OpInv(op, live, closing) && op.caller.OwnDelete?
    ensures op.deletes == 0 && OpInv(op.(caller := Returned, deletes := op.deletes + 1), live, closing)
  {
  }

  lemma LateResultKeeps(op: Op, live: bool, closing: bool)
    requires OpInv(op, live, closing) && op.abandoner.Select? && op.channel.Some?
    ensures Owned(op.kind) ==> OpInv(op.(channel := None, abandoner := Cleanup(op.channel)), live, closing)
    ensures !Owned(op.kind) ==> OpInv(op.(channel := None, abandoner := Claiming(op.channel)), live, closing)
  {
  }

  lemma LateClosingKeeps(op: Op, live: bool, closing: bool)
    requires OpInv(op, live, closing) && op.abandoner.Select? && !Owned(op.kind) && closing
    ensures OpInv(op.(abandoner := Claiming(None)), live, closing)
  {
  }

  lemma LateClaimWins(op: Op, live: bool, gone: bool, closing: bool)
    requires OpInv(op, live, closing) && op.abandoner.Claiming? && live && !gone
    ensures OpInv(op.(abandoner := Deleting(op.abandoner.got), claims := op.claims + 1), gone, closing)
  {
  }

  lemma LateClaimLoses(op: Op, live: bool, closing: bool)
    requires OpInv(op, live, closing) && op.abandoner.Claiming? && !live
    ensures OpInv(op.(abandoner := Cleanup(op.abandoner.got)), live, closing)
  {
  }

  lemma LateDeleteKeeps(op: Op, live: bool, closing: bool)
    requires OpInv(op, live, closing) && op.abandoner.Deleting?
    ensures op.deletes == 0 && OpInv(op.(abandoner := Cleanup(op.abandoner.got), deletes := op.deletes + 1), live, closing)
  {
  }

  /** What the goroutine disposes of is what it carries, so nothing is lost or made up. */
  lemma CleanupPayload(op: Op)
    requires PayloadInv(op) && op.abandoner.Cleanup?
    ensures PayloadInv(Dispose(op, op.abandoner.got).(abandoner := Finished))
  {
    hide One, ItemsOk;
    var got := op.abandoner.got;
    var after := Dispose(op, got).(abandoner := Finished);
    assert after.disposed == op.disposed + CarriedIf(got) by { DisposesCarried(op); }
    assert InFlight(op) == InFlight(after) + CarriedIf(got);
    assert ItemsOk(after) by { FinishedItems(op); }
  }

  lemma DisposesCarried(op: Op)
    requires ItemsOk(op) && op.abandoner.Cleanup?
    ensures Dispose(op, op.abandoner.got).disposed == op.disposed + CarriedIf(op.abandoner.got)
  {
  }

  lemma FinishedItems(op: Op)
    requires ItemsOk(op) && op.abandoner.Cleanup?
    ensures ItemsOk(Dispose(op, op.abandoner.got).(abandoner := Finished))
  {
  }

  lemma CleanupClaims(op: Op, live: bool, closing: bool)
    requires ClaimInv(op, live) && ChannelInv(op) && Waiters(op, live, closing) && op.abandoner.Cleanup?
    ensures var after := Dispose(op, op.abandoner.got).(abandoner := Finished);
      ClaimInv(after, live) && ChannelInv(after) && Waiters(after, live, closing)
  {
  }

  lemma CleanupKeeps(op: Op, live: bool, closing: bool)
    requires OpInv(op, live, closing) && op.abandoner.Cleanup?
    ensures OpInv(Dispose(op, op.abandoner.got).(abandoner := Finished), live, closing)
  {
    hide ClaimInv, ChannelInv, PayloadInv, Waiters, Dispose;
    CleanupPayload(op);
    CleanupClaims(op, live, closing);
  }

  lemma CompletePayload(op: Op, item: Item)
    requires PayloadInv(op) && ChannelInv(op) && op.native.Running? && Postable(op.kind, item)
    ensures PayloadInv(op.(native := Queued(item), produced := op.produced + One(item.payload)))
  {
    hide One, Postable;
    var after := op.(native := Queued(item), produced := op.produced + One(item.payload));
    assert InFlight(after) == InFlight(op) + Carried(item);
  }

  lemma CompleteRest(op: Op, live: bool, closing: bool, item: Item)
    requires ClaimInv(op, live) && ChannelInv(op) && Waiters(op, live, closing) && op.native.Running?
    ensures var after := op.(native := Queued(item), produced := op.produced + One(item.payload));
      ClaimInv(after, live) && ChannelInv(after) && Waiters(after, live, closing)
  {
  }

  lemma CompleteKeeps(op: Op, live: bool, closing: bool, item: Item)
    requires OpInv(op, live, closing) && op.native.Running? && Postable(op.kind, item)
    ensures OpInv(op.(native := Queued(item), produced := op.produced + One(item.payload)), live, closing)
  {
    hide ClaimInv, ChannelInv, PayloadInv, Waiters;
    CompletePayload(op, item);
    CompleteRest(op, live, closing, item);
  }

  lemma TakeEventKeeps(op: Op, live: bool, closing: bool)
    requires OpInv(op, live, closing) && op.native.Queued?
    ensures OpInv(op.(native := Taken, dispatch := AtClaim(op.native.item)), live, closing)
  {
  }

  lemma ReclaimKeeps(op: Op, live: bool, closing: bool)
    requires OpInv(op, live, closing)
    ensures OpInv(Reclaim(op), live, closing)
  {
  }

  lemma DispatchClaimKeeps(op: Op, live: bool, gone: bool, closing: bool)
    requires OpInv(op, live, closing) && !gone && op.dispatch.AtClaim?
    ensures live ==> OpInv(op.(dispatch := AtValue(op.dispatch.item), claims := op.claims + 1), gone, closing)
    ensures !live ==> OpInv(op.(dispatch := Idle, disposed := op.disposed + One(op.dispatch.item.payload)), live, closing)
  {
  }

  lemma DispatchSendKeeps(op: Op, live: bool, closing: bool)
    requires OpInv(op, live, closing)
    ensures op.dispatch.AtValue? ==> op.deletes == 0 && OpInv(op.(dispatch := AtSend(op.dispatch.item)), live, closing)
    ensures op.dispatch.AtSend? ==> op.channel.None?
    ensures op.dispatch.AtSend? ==>
      OpInv(op.(dispatch := AtDelete, channel := Some(op.dispatch.item), sends := op.sends + 1), live, closing)
  {
  }

  lemma DispatchDeleteKeeps(op: Op, live: bool, closing: bool)
    requires OpInv(op, live, closing) && op.dispatch.AtDelete?
    ensures op.deletes == 0 && OpInv(op.(dispatch := Idle, deletes := op.deletes + 1), live, closing)
  {
  }

  // ---------- one step of a state ----------

  /** A step of one operation keeps what is known of it, and is no fault but a late submission. */
  predicate Kept(s: State, id: nat, s': State) {
    id in s'.ops && s'.faults <= s.faults + {SubmitAfterFree} && OpInv(s'.ops[id], id in s'.active, s.closing)
  }

  lemma StartKeeps(s: State, id: nat, m: EnsureMove, op: Op)
    requires EnsureEnabled(s, m, op) && OpInv(op, id in s.active, s.closing)
    ensures Kept(s, id, EnsureDo(s, id, m, op))
  {
    hide OpInv;
    EnsureKeeps(op, id in s.active, true, s.closing);
  }

  lemma CallerKeeps(s: State, id: nat, m: CallerMove, op: Op)
    requires CallerEnabled(s, m, op) && OpInv(op, id in s.active, s.closing)
    ensures Kept(s, id, CallerDo(s, id, m, op))
  {
    hide OpInv, Deliver;
    var live, closing := id in s.active, s.closing;
    if op.caller.Ready? { EnsureKeeps(op, live, true, closing); }
    else if op.caller.Registered? { SubmitKeeps(op, live, closing); }
    else if op.caller.Waiting? { WaitKeeps(op, live, closing); }
    else if op.caller.Received? { ReturnKeeps(op, live, closing); }
    else if op.caller.Abandoning? { AbandonKeeps(op, live, false, closing); }
    else if op.caller.OwnDelete? { OwnDeleteKeeps(op, live, closing); }
    else { FailureKeeps(op, live, false, closing); }
  }

  lemma AbandonerKeeps(s: State, id: nat, m: LateMove, op: Op)
    requires LateEnabled(s, m, op) && OpInv(op, id in s.active, s.closing)
    ensures Kept(s, id, LateDo(s, id, m, op))
  {
    hide OpInv, Dispose;
    var live, closing := id in s.active, s.closing;
    match m {
      case LateReceive => LateResultKeeps(op, live, closing);
      case LateClosing => LateClosingKeeps(op, live, closing);
      case LateClaim =>
        if live { LateClaimWins(op, live, false, closing); } else { LateClaimLoses(op, live, closing); }
      case LateDelete => LateDeleteKeeps(op, live, closing);
      case LateCleanup => CleanupKeeps(op, live, closing);
    }
  }

  lemma DrainKeeps(s: State, id: nat, m: NativeMove, op: Op)
    requires NativeEnabled(s, m, op) && OpInv(op, id in s.active, s.closing)
    ensures Kept(s, id, NativeDo(s, id, m, op))
  {
    hide OpInv, Postable;
    var live, closing := id in s.active, s.closing;
    match m {
      case Complete(item) => CompleteKeeps(op, live, closing, item);
      case TakeEvent => TakeEventKeeps(op, live, closing);
      case DispatchClaim => DispatchClaimKeeps(op, live, false, closing);
      case DispatchValue => DispatchSendKeeps(op, live, closing);
      case DispatchSend => DispatchSendKeeps(op, live, closing);
      case DispatchDelete => DispatchDeleteKeeps(op, live, closing);
    }
  }

  /** What a step of one operation leaves alone. */
  ghost predicate Framed(s: State, id: nat, s': State) {
    && s'.ops.Keys == s.ops.Keys + {id}
    && (forall i :: i in s.ops && i != id ==> s'.ops[i] == s.ops[i])
    && (forall i :: i != id ==> (i in s'.active <==> i in s.active))
    && s'.closing == s.closing && s'.closer == s.closer && s'.stop == s.stop && s'.freed == s.freed
  }

  /** Where it leaves the operation, the lock and the drain goroutine. */
  predicate Placed(s: State, id: nat, s': State) {
    && id in s'.ops
    && var op := s'.ops[id];
    && (s.freed ==> !op.native.Running? && !op.native.Queued?)
    && (!op.dispatch.Idle? <==> s'.drain == Busy(id))
    && (op.caller.Locked? || op.caller.SawOpen? ==> s'.lock == HeldBy(id))
    && (op.caller.SawOpen? ==> !Released(s'))
    && DrainInv(s')
    && (s'.lock == s.lock || (s.lock.Free? && s'.lock == HeldBy(id)) || (s.lock == HeldBy(id) && s'.lock.Free?))
    && (s'.drain == s.drain || (s.drain.NotStarted? && s'.drain.Top?)
        || (s.drain.InNative? && s'.drain == Busy(id)) || (s.drain == Busy(id) && s'.drain.InNative?))
  }

  lemma StartFramed(s: State, id: nat, m: EnsureMove, op: Op)
    requires EnsureEnabled(s, m, op) && id in s.ops
    ensures Framed(s, id, EnsureDo(s, id, m, op))
  {
  }

  lemma WritesFramed(s: State, id: nat)
    requires id in s.ops
    ensures forall op :: Framed(s, id, Put(s, id, op))
    ensures forall won, lost :: Framed(s, id, Claim(s, id, won, lost))
    ensures forall op :: Framed(s, id, Delete(s, id, op))
  {
  }

  lemma CallerFramed(s: State, id: nat, m: CallerMove, op: Op)
    requires CallerEnabled(s, m, op) && id in s.ops
    ensures Framed(s, id, CallerDo(s, id, m, op))
  {
    WritesFramed(s, id);
    hide Deliver, Claim, Delete;
  }

  lemma AbandonerFramed(s: State, id: nat, m: LateMove, op: Op)
    requires LateEnabled(s, m, op) && id in s.ops
    ensures Framed(s, id, LateDo(s, id, m, op))
  {
    hide Dispose;
  }

  lemma DrainFramed(s: State, id: nat, m: NativeMove, op: Op)
    requires NativeEnabled(s, m, op) && id in s.ops
    ensures Framed(s, id, NativeDo(s, id, m, op))
  {
    WritesFramed(s, id);
    hide Claim, Delete;
  }

  lemma StartPlaced(s: State, id: nat, m: EnsureMove)
    requires id in s.ops && EnsureEnabled(s, m, s.ops[id]) && DrainInv(s) && OpPlace(s, id)
    ensures Placed(s, id, EnsureDo(s, id, m, s.ops[id]))
  {
    hide OpInv;
  }

  lemma CallerPlaced(s: State, id: nat, m: CallerMove)
    requires id in s.ops && CallerEnabled(s, m, s.ops[id]) && DrainInv(s) && OpPlace(s, id)
    ensures Placed(s, id, CallerDo(s, id, m, s.ops[id]))
  {
    CallerQuiet(s, id, m);
    CallerFramed(s, id, m, s.ops[id]);
    hide CallerDo, OpInv;
  }

  lemma CallerQuiet(s: State, id: nat, m: CallerMove)
    requires id in s.ops && CallerEnabled(s, m, s.ops[id])
    ensures var op, s' := s.ops[id], CallerDo(s, id, m, s.ops[id]);
      && id in s'.ops && s'.lock == s.lock && s'.drain == s.drain && s'.starts == s.starts
      && s'.ops[id].dispatch == op.dispatch && !s'.ops[id].caller.Locked? && !s'.ops[id].caller.SawOpen?
      && (s'.ops[id].native == op.native || !s.freed || s'.ops[id].native.Reclaimed?)
  {
  }

  lemma AbandonerPlaced(s: State, id: nat, m: LateMove)
    requires id in s.ops && LateEnabled(s, m, s.ops[id]) && DrainInv(s) && OpPlace(s, id)
    ensures Placed(s, id, LateDo(s, id, m, s.ops[id]))
  {
    hide OpInv;
  }

  lemma DrainPlaced(s: State, id: nat, m: NativeMove)
    requires id in s.ops && NativeEnabled(s, m, s.ops[id]) && DrainInv(s) && OpPlace(s, id)
    ensures Placed(s, id, NativeDo(s, id, m, s.ops[id]))
  {
    hide OpInv;
  }

  /** A kept, framed and placed step of one operation keeps the invariant of the whole. */
  lemma OpStepKeepsInv(s: State, id: nat, s': State)
    requires Inv(s) && id in s.ops && Kept(s, id, s') && Framed(s, id, s') && Placed(s, id, s')
    ensures Inv(s')
  {
    hide OpInv;
    forall i | i in s'.ops ensures OpPlace(s', i) {
      if i != id { assert OpPlace(s, i); }
    }
  }

  lemma NewOpOk(op: Op, live: bool, closing: bool)
    requires op.caller.Entering? && Untouched(op) && !live
    ensures OpInv(op, live, closing)
  {
  }

  lemma ClosingKeeps(op: Op, live: bool, before: bool, after: bool)
    requires OpInv(op, live, before) && !before && after
    ensures OpInv(op, live, after)
  {
  }

  lemma DrainStepKeepsInv(s: State, m: DrainMove)
    requires Inv(s) && DrainEnabled(s, m)
    ensures Inv(DrainDo(s, m))
  {
    hide OpInv;
    var s' := DrainDo(s, m);
    forall i | i in s'.ops ensures OpPlace(s', i) { assert OpPlace(s, i); }
  }

  lemma CloseStepKeepsInv(s: State, m: CloseMove)
    requires Inv(s) && CloseEnabled(s, m)
    ensures Inv(CloseDo(s, m))
  {
    hide OpInv, Reclaim;
    var s' := CloseDo(s, m);
    forall i | i in s'.ops ensures OpPlace(s', i) {
      assert OpPlace(s, i);
      if m.CloseSignal? { ClosingKeeps(s.ops[i], i in s.active, s.closing, s'.closing); }
      ReclaimKeeps(s.ops[i], i in s.active, s.closing);
      ReclaimLeaves(s.ops[i]);
    }
  }

  lemma ReclaimLeaves(op: Op)
    ensures var op' := Reclaim(op);
      !op'.native.Running? && !op'.native.Queued? && op'.caller == op.caller && op'.dispatch == op.dispatch
  {
  }

  lemma StepKeepsInv(s: State, st: Step)
    requires Inv(s) && Enabled(s, st)
    ensures Inv(Do(s, st))
  {
    hide OpInv, Kept, Framed, Placed;
    if st.ByEnsure? || st.ByCaller? || st.ByAbandoner? || st.ByNative? {
      assert OpPlace(s, st.id);
    }
    match st {
      case Begin(id, kind) =>
        NewOpOk(NewOp(kind), id in s.active, s.closing);
        forall i | i in s.ops ensures OpPlace(s, i) && OpPlace(Do(s, st), i) { assert OpPlace(s, i); }
      case ByEnsure(id, m) =>
        StartKeeps(s, id, m, s.ops[id]);
        StartFramed(s, id, m, s.ops[id]);
        StartPlaced(s, id, m);
        OpStepKeepsInv(s, id, Do(s, st));
      case ByCaller(id, m) =>
        CallerKeeps(s, id, m, s.ops[id]);
        CallerFramed(s, id, m, s.ops[id]);
        CallerPlaced(s, id, m);
        OpStepKeepsInv(s, id, Do(s, st));
      case ByAbandoner(id, m) =>
        AbandonerKeeps(s, id, m, s.ops[id]);
        AbandonerFramed(s, id, m, s.ops[id]);
        AbandonerPlaced(s, id, m);
        OpStepKeepsInv(s, id, Do(s, st));
      case ByNative(id, m) =>
        DrainKeeps(s, id, m, s.ops[id]);
        DrainFramed(s, id, m, s.ops[id]);
        DrainPlaced(s, id, m);
        OpStepKeepsInv(s, id, Do(s, st));
      case ByDrain(m) => DrainStepKeepsInv(s, m);
      case ByClose(m) => CloseStepKeepsInv(s, m);
    }
  }

  // ---------- every run ----------

  lemma {:induction false} RunKeepsInv(run: seq<State>, n: nat)
    requires Run(run) && n < |run|
    ensures Inv(run[n])
  {
    if n > 0 {
      RunKeepsInv(run, n - 1);
      assert Next(run[n - 1], run[n]);
      var st :| Enabled(run[n - 1], st) && run[n] == Do(run[n - 1], st);
      hide Inv;
      StepKeepsInv(run[n - 1], st);
    }
  }

  /**
   In any interleaving, late submissions included, no handle is deleted twice or read after its
   delete, no send blocks the drain goroutine, and the native drain is never called after the
   native runtime is freed.
   */
  lemma RunIsSafe(run: seq<State>, n: nat)
    requires Run(run) && n < |run|
    ensures run[n].faults <= {SubmitAfterFree} && run[n].starts <= 1
    ensures forall id :: id in run[n].ops ==> run[n].ops[id].claims <= 1 && run[n].ops[id].deletes <= 1
  {
    RunKeepsInv(run, n);
    forall id | id in run[n].ops ensures run[n].ops[id].claims <= 1 && run[n].ops[id].deletes <= 1 {
      assert OpPlace(run[n], id);
    }
  }

  /** Nothing of this operation is still going on. */
  predicate Settled(op: Op) {
    && op.caller.Returned? && (op.abandoner.NoGoroutine? || op.abandoner.Finished?)
    && op.dispatch.Idle? && !op.native.Running? && !op.native.Queued?
  }

  /** A settled handle left the registry, and was claimed and deleted exactly once. */
  lemma SettledHandles(run: seq<State>, n: nat)
    requires Run(run) && n < |run|
    requires forall id :: id in run[n].ops ==> Settled(run[n].ops[id])
    ensures run[n].active == {}
    ensures forall id :: id in run[n].ops ==> run[n].ops[id].claims == 1 && run[n].ops[id].deletes == 1
  {
    RunKeepsInv(run, n);
    forall id | id in run[n].ops
      ensures id !in run[n].active && run[n].ops[id].claims == 1 && run[n].ops[id].deletes == 1
    {
      assert OpPlace(run[n], id);
    }
  }

  function Ends(op: Op): nat { op.handed + op.disposed + op.dropped }

  /** A payload meets at most one end, ever. */
  lemma PayloadAtMostOnce(run: seq<State>, n: nat, id: nat)
    requires Run(run) && n < |run| && id in run[n].ops
    ensures Ends(run[n].ops[id]) <= run[n].ops[id].produced <= 1
  {
    RunKeepsInv(run, n);
    assert OpPlace(run[n], id);
  }

  /**
   Once its operation has settled, a payload of Export or Import was handed to the caller, disposed
   of, or dropped with the native queue: exactly one of these, exactly once, whatever the race.
   */
  lemma OwnedPayloadConserved(run: seq<State>, n: nat, id: nat)
    requires Run(run) && n < |run| && id in run[n].ops
    requires Owned(run[n].ops[id].kind) && Settled(run[n].ops[id])
    ensures Ends(run[n].ops[id]) == run[n].ops[id].produced
  {
    RunKeepsInv(run, n);
    assert OpPlace(run[n], id);
    hide Inv, OpInv;
    SettledOwned(run[n].ops[id], id in run[n].active, run[n].closing);
  }

  lemma SettledOwned(op: Op, live: bool, closing: bool)
    requires OpInv(op, live, closing) && Owned(op.kind) && Settled(op)
    ensures Ends(op) == op.produced
  {
    hide ClaimInv, ChannelInv;
    assert op.channel.None?;
  }

  /** For Create and Get the same holds in every run in which the runtime is not closed. */
  lemma BoxPayloadConserved(run: seq<State>, n: nat, id: nat)
    requires Run(run) && n < |run| && id in run[n].ops
    requires Settled(run[n].ops[id]) && !run[n].closing
    ensures Ends(run[n].ops[id]) == run[n].ops[id].produced
  {
    RunKeepsInv(run, n);
    assert OpPlace(run[n], id);
  }

  /**
   A settled operation has a payload that met no end exactly when its completion is stuck in the
   channel, and then the runtime was closing.
   */
  lemma UnendedIsInChannel(run: seq<State>, n: nat, id: nat)
    requires Run(run) && n < |run| && id in run[n].ops && Settled(run[n].ops[id])
    ensures var op := run[n].ops[id];
      && (Ends(op) < op.produced <==> op.channel.Some? && op.channel.value.payload)
      && (op.channel.Some? ==> op.kind.Box? || op.kind.Unit?)
      && (op.channel.Some? ==> run[n].closing)
  {
    RunKeepsInv(run, n);
    assert OpPlace(run[n], id);
  }

  /** The goroutine of `abandonOwnedResult` never waits in vain. */
  lemma OwnedAbandonerIsServed(run: seq<State>, n: nat, id: nat)
    requires Run(run) && n < |run| && id in run[n].ops
    requires Owned(run[n].ops[id].kind) && run[n].ops[id].abandoner.Select?
    ensures var op := run[n].ops[id];
      Enabled(run[n], ByAbandoner(id, LateReceive))
      || Enabled(run[n], ByNative(id, DispatchValue)) || Enabled(run[n], ByNative(id, DispatchSend))
  {
    RunKeepsInv(run, n);
    assert OpPlace(run[n], id);
  }

  lemma ReleasedStaysReleased(s: State, s': State)
    requires Inv(s) && Next(s, s') && Released(s)
    ensures Released(s') && s'.starts == s.starts
  {
    hide OpInv, CallerDo, LateDo, NativeDo;
    var st :| Enabled(s, st) && s' == Do(s, st);
    match st {
      case ByEnsure(id, m) => assert OpPlace(s, id);
      case ByCaller(id, m) => CallerQuiet(s, id, m); CallerFramed(s, id, m, s.ops[id]);
      case ByAbandoner(id, m) => AbandonerFramed(s, id, m, s.ops[id]); AbandonerQuiet(s, id, m);
      case ByNative(id, m) => DrainFramed(s, id, m, s.ops[id]); DrainQuiet(s, id, m);
      case _ =>
    }
  }

  lemma AbandonerQuiet(s: State, id: nat, m: LateMove)
    requires id in s.ops && LateEnabled(s, m, s.ops[id])
    ensures LateDo(s, id, m, s.ops[id]).starts == s.starts
  {
  }

  lemma DrainQuiet(s: State, id: nat, m: NativeMove)
    requires id in s.ops && NativeEnabled(s, m, s.ops[id])
    ensures NativeDo(s, id, m, s.ops[id]).starts == s.starts
  {
  }

  /** Once `stopDrain` has released the lock, no drain goroutine is started any more. */
  lemma {:induction false} NoStartAfterRelease(run: seq<State>, i: nat, j: nat)
    requires Run(run) && i <= j < |run| && Released(run[i])
    ensures Released(run[j]) && run[j].starts == run[i].starts
    decreases j
  {
    hide Inv, Next;
    if i < j {
      NoStartAfterRelease(run, i, j - 1);
      RunKeepsInv(run, j - 1);
      ReleasedStaysReleased(run[j - 1], run[j]);
    }
  }

  // ---------- who gets a payload ----------

  /** Only a caller that received its own result is handed a payload, and only a freed runtime drops one. */
  predicate EndsRightly(op: Op, freed: bool) {
    && (op.handed > 0 ==> op.caller.Returned? && op.abandoner.NoGoroutine? && (op.kind.Box? || op.kind.Import?))
    && (op.dropped > 0 ==> freed)
  }

  ghost predicate AllEndRightly(s: State) { forall id :: id in s.ops ==> EndsRightly(s.ops[id], s.freed) }

  lemma CallerEnds(s: State, id: nat, m: CallerMove)
    requires id in s.ops && CallerEnabled(s, m, s.ops[id]) && OpInv(s.ops[id], id in s.active, s.closing)
    requires EndsRightly(s.ops[id], s.freed)
    ensures var s' := CallerDo(s, id, m, s.ops[id]); id in s'.ops && EndsRightly(s'.ops[id], s'.freed) && s'.freed == s.freed
  {
    hide ClaimInv, ChannelInv;
  }

  lemma AbandonerEnds(s: State, id: nat, m: LateMove)
    requires id in s.ops && LateEnabled(s, m, s.ops[id]) && EndsRightly(s.ops[id], s.freed)
    ensures var s' := LateDo(s, id, m, s.ops[id]); id in s'.ops && EndsRightly(s'.ops[id], s'.freed) && s'.freed == s.freed
  {
  }

  lemma NativeEnds(s: State, id: nat, m: NativeMove)
    requires id in s.ops && NativeEnabled(s, m, s.ops[id]) && EndsRightly(s.ops[id], s.freed)
    ensures var s' := NativeDo(s, id, m, s.ops[id]); id in s'.ops && EndsRightly(s'.ops[id], s'.freed) && s'.freed == s.freed
  {
  }

  lemma StepEndsRightly(s: State, st: Step)
    requires Inv(s) && AllEndRightly(s) && Enabled(s, st)
    ensures AllEndRightly(Do(s, st))
  {
    hide OpInv, CallerDo, LateDo, NativeDo, EndsRightly;
    match st {
      case Begin(id, kind) => NewEnds(kind, s.freed);
      case ByEnsure(id, m) => EnsureEnds(s, id, m);
      case ByCaller(id, m) => assert OpPlace(s, id); CallerEnds(s, id, m); CallerFramed(s, id, m, s.ops[id]);
      case ByAbandoner(id, m) => AbandonerEnds(s, id, m); AbandonerFramed(s, id, m, s.ops[id]);
      case ByNative(id, m) => NativeEnds(s, id, m); DrainFramed(s, id, m, s.ops[id]);
      case ByDrain(m) =>
      case ByClose(m) => forall i | i in s.ops { ReclaimEnds(s.ops[i], s.freed); }
    }
  }

  lemma NewEnds(kind: Kind, freed: bool)
    ensures EndsRightly(NewOp(kind), freed)
  {
  }

  lemma EnsureEnds(s: State, id: nat, m: EnsureMove)
    requires id in s.ops && EnsureEnabled(s, m, s.ops[id]) && AllEndRightly(s)
    ensures AllEndRightly(EnsureDo(s, id, m, s.ops[id]))
  {
  }

  lemma ReclaimEnds(op: Op, freed: bool)
    requires EndsRightly(op, freed)
    ensures EndsRightly(Reclaim(op), true)
  {
  }

  lemma {:induction false} RunEndsRightly(run: seq<State>, n: nat)
    requires Run(run) && n < |run|
    ensures AllEndRightly(run[n])
  {
    if n > 0 {
      RunEndsRightly(run, n - 1);
      RunKeepsInv(run, n - 1);
      assert Next(run[n - 1], run[n]);
      var st :| Enabled(run[n - 1], st) && run[n] == Do(run[n - 1], st);
      hide Inv, AllEndRightly;
      StepEndsRightly(run[n - 1], st);
    }
  }

  /** A caller that gave up is never handed a payload, and nothing is dropped before the runtime is freed. */
  lemma GivingUpHandsNothing(run: seq<State>, n: nat, id: nat)
    requires Run(run) && n < |run| && id in run[n].ops
    ensures !run[n].ops[id].abandoner.NoGoroutine? || !run[n].ops[id].caller.Returned? ==> run[n].ops[id].handed == 0
    ensures run[n].ops[id].dropped > 0 ==> run[n].freed
  {
    RunEndsRightly(run, n);
  }
}
