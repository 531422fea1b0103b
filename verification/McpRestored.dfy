/** What rollbacks put back, said on the fields of the tenant's resources alone. */
module McpRestored {
  import opened Prelude
  import opened JsonTree
  import opened McpTenant
  import opened McpPlan
  import opened McpRun
  import opened McpRecovery
  import opened McpPlanned
  import opened McpFaultless
  import opened McpGoal

  // ---------- what a rollback puts back ----------

  /** A new grant with the old one's client, audience, scope and subject type, and nothing else. */
  predicate StandsFor(t: Tenant, after: Tenant, p: Path, q: Path) {
    && p.Grant? && p in t.docs && p !in after.docs
    && q.Grant? && q in after.docs && q !in t.docs
    && Agree(t.docs[p], after.docs[q], ClientId) && Agree(t.docs[p], after.docs[q], Audience)
    && Agree(t.docs[p], after.docs[q], Scope) && Agree(t.docs[p], after.docs[q], SubjectType)
    && forall k :: k in after.docs[q] ==> k in {ClientId, Audience, Scope, SubjectType}
  }

  /** Old fields have their old values; a new one is null, or the settings flag at its default. */
  predicate PutBack(f: Fields, after: Fields, isSettings: bool) {
    && (forall k :: k in f ==> Has(after, k, f[k]))
    && (forall k :: k in after && k !in f ==> after[k] == Null || (isSettings && k == IssParameter && after[k] == Bool(false)))
  }

  lemma CopyStands(f: Fields)
    ensures var c := GrantCopy(f);
      && Agree(f, c, ClientId) && Agree(f, c, Audience) && Agree(f, c, Scope) && Agree(f, c, SubjectType)
      && forall k :: k in c ==> k in {ClientId, Audience, Scope, SubjectType}
  {
  }

  predicate GrantNames(t: Tenant, p: Path, c: Json, a: Json, u: Json) {
    p.Grant? && p in t.docs && Has(t.docs[p], ClientId, c) && Has(t.docs[p], Audience, a) && Has(t.docs[p], SubjectType, u)
  }

  /**
   Every resource has its old fields, or is a revoked grant that another one stands for; nothing
   else is there; and no two grants are for one client, audience and subject type.
   */
  ghost predicate AllPutBack(t: Tenant, after: Tenant) {
    && (forall p :: p in t.docs && p in after.docs ==> PutBack(t.docs[p], after.docs[p], p.Settings?))
    && (forall p :: p in t.docs && p !in after.docs ==> exists q :: StandsFor(t, after, p, q))
    && (forall q :: q in after.docs && q !in t.docs ==> exists p :: StandsFor(t, after, p, q))
    && (forall p, q, c, a, u :: GrantNames(after, p, c, a, u) && GrantNames(after, q, c, a, u) ==> p == q)
  }

  lemma RestoredMeans(t: Tenant, after: Tenant)
    requires Restored(t, after)
    ensures AllPutBack(t, after)
  {
    OneEach(after);
    hide UniqueKeys;
    forall p | p in t.docs && p in after.docs ensures PutBack(t.docs[p], after.docs[p], p.Settings?) {
      assert FieldsBack(t, after, p);
      assert forall k :: k in SETTINGS_DEFAULTS ==> k == IssParameter;
    }
    forall p, q | Recreates(t, after, p, q) ensures StandsFor(t, after, p, q) { CopyStands(t.docs[p]); }
    hide Recreates, StandsFor, PutBack, GrantNames;
  }

  lemma OneEach(after: Tenant)
    requires UniqueKeys(after)
    ensures forall p, q, c, a, u :: GrantNames(after, p, c, a, u) && GrantNames(after, q, c, a, u) ==> p == q
  {
    forall p, q, c, a, u | GrantNames(after, p, c, a, u) && GrantNames(after, q, c, a, u) ensures p == q {
      assert KeyOf(p, after.docs[p]) == GrantKey(c, a, u) == KeyOf(q, after.docs[q]);
    }
  }

  /**
   Wherever a run stopped, and after any rollbacks that failed, one without a failure leaves every
   resource with its old fields; a revoked grant is back with its client, audience, scope and
   subject type; what the run made is gone; and no two grants are for one client, audience and
   subject type.
   */
  lemma RollbackPutsBack(
    t: Tenant, cfg: Config, listing: seq<Path>, cuts: seq<Cut>, tries: seq<seq<Attempt>>, last: seq<Attempt>)
    requires WellFormed(t) && ConfigOk(cfg) && Plannable(t, cfg) && ListsGrants(t, listing)
    requires var run := ApplyFrom(t, Plan(t, cfg, listing), 0, cuts);
      RollbackFrom(Rollbacks(run.tenant, run.journal, tries), run.journal, |run.journal|, last).failures == 0
    ensures var run := ApplyFrom(t, Plan(t, cfg, listing), 0, cuts);
      var after := RollbackFrom(Rollbacks(run.tenant, run.journal, tries), run.journal, |run.journal|, last).tenant;
      AllPutBack(t, after)
  {
    StoppedRunRollsBack(t, cfg, listing, cuts, tries, last);
    hide Plan, ApplyFrom, RollbackFrom, Rollbacks, Restored, AllPutBack, WellFormed, ConfigOk, Plannable;
    var run := ApplyFrom(t, Plan(t, cfg, listing), 0, cuts);
    var after := RollbackFrom(Rollbacks(run.tenant, run.journal, tries), run.journal, |run.journal|, last).tenant;
    RestoredMeans(t, after);
  }

  /** A grant that was not there before the run. */
  predicate NewGrant(t: Tenant, after: Tenant, q: Path) { q.Grant? && q in after.docs && q !in t.docs }

  predicate BackWhole(t: Tenant, after: Tenant, p: Path, q: Path) {
    p in t.docs && NewGrant(t, after, q) && after.docs[q] == t.docs[p]
  }

  /**
   After a run and the rollback that undid it, a revoked grant is there again with its client,
   audience, scope and subject type; it is there as it was exactly when it had no other field.
   */
  lemma RevokedGrantWhole(
    t: Tenant, cfg: Config, listing: seq<Path>, cuts: seq<Cut>, tries: seq<seq<Attempt>>, last: seq<Attempt>, p: Path)
    returns (q: Path)
    requires WellFormed(t) && ConfigOk(cfg) && Plannable(t, cfg) && ListsGrants(t, listing)
    requires var run := ApplyFrom(t, Plan(t, cfg, listing), 0, cuts);
      var end := RollbackFrom(Rollbacks(run.tenant, run.journal, tries), run.journal, |run.journal|, last);
      end.failures == 0 && p in t.docs && p !in end.tenant.docs
    ensures var run := ApplyFrom(t, Plan(t, cfg, listing), 0, cuts);
      var after := RollbackFrom(Rollbacks(run.tenant, run.journal, tries), run.journal, |run.journal|, last).tenant;
      && p.Grant? && NewGrant(t, after, q)
      && Agree(t.docs[p], after.docs[q], ClientId) && Agree(t.docs[p], after.docs[q], Audience)
      && Agree(t.docs[p], after.docs[q], Scope) && Agree(t.docs[p], after.docs[q], SubjectType)
      && ((exists r :: BackWhole(t, after, p, r)) <==> t.docs[p].Keys <= {ClientId, Audience, Scope, SubjectType})
  {
    RollbackPutsBack(t, cfg, listing, cuts, tries, last);
    hide Plan, ApplyFrom, RollbackFrom, Rollbacks, WellFormed, ConfigOk, Plannable, ListsGrants;
    var run := ApplyFrom(t, Plan(t, cfg, listing), 0, cuts);
    var after := RollbackFrom(Rollbacks(run.tenant, run.journal, tries), run.journal, |run.journal|, last).tenant;
    q := GrantComesBack(t, after, p);
  }

  lemma GrantComesBack(t: Tenant, after: Tenant, p: Path) returns (q: Path)
    requires AllPutBack(t, after) && p in t.docs && p !in after.docs
    ensures StandsFor(t, after, p, q)
    ensures (exists r :: BackWhole(t, after, p, r)) <==> t.docs[p].Keys <= {ClientId, Audience, Scope, SubjectType}
  {
    hide PutBack, GrantNames, StandsFor;
    q :| StandsFor(t, after, p, q);
    if t.docs[p].Keys <= {ClientId, Audience, Scope, SubjectType} { StandsWhole(t, after, p, q); }
    hide BackWhole;
    forall r | BackWhole(t, after, p, r) ensures t.docs[p].Keys <= {ClientId, Audience, Scope, SubjectType} {
      NewIsPlain(t, after, p, r);
    }
  }

  lemma StandsWhole(t: Tenant, after: Tenant, p: Path, q: Path)
    requires StandsFor(t, after, p, q) && t.docs[p].Keys <= {ClientId, Audience, Scope, SubjectType}
    ensures BackWhole(t, after, p, q)
  {
    var f, g := t.docs[p], after.docs[q];
    forall k ensures Agree(f, g, k) {}
    assert f.Keys == g.Keys;
  }

  lemma NewIsPlain(t: Tenant, after: Tenant, p: Path, r: Path)
    requires AllPutBack(t, after) && BackWhole(t, after, p, r)
    ensures t.docs[p].Keys <= {ClientId, Audience, Scope, SubjectType}
  {
    var o := NewStands(t, after, r);
    hide AllPutBack;
    StandsPlain(t, after, o, r);
  }

  lemma NewStands(t: Tenant, after: Tenant, r: Path) returns (o: Path)
    requires AllPutBack(t, after) && r in after.docs && r !in t.docs
    ensures StandsFor(t, after, o, r)
  {
    hide PutBack, GrantNames, StandsFor;
    o :| StandsFor(t, after, o, r);
  }

  lemma StandsPlain(t: Tenant, after: Tenant, o: Path, r: Path)
    requires StandsFor(t, after, o, r)
    ensures after.docs[r].Keys <= {ClientId, Audience, Scope, SubjectType}
  {
    assert forall k :: k in after.docs[r].Keys ==> k in after.docs[r];
  }

  // ---------- a failed undo keeps no other from its turn ----------

  /** The attempt on entry `j` succeeds, with an id that nobody has used by then. */
  predicate TurnSucceeds(s: Tenant, n: nat, j: nat, attempts: seq<Attempt>) {
    && j < n && n - 1 - j < |attempts|
    && var a := attempts[n - 1 - j];
    && a.Succeeds? && Fresh(s, a.id)
    && forall k :: 0 <= k < n - 1 - j ==> attempts[k].Refused? || attempts[k].id != a.id
  }

  lemma UndoUses(s: Tenant, e: Entry, a: Attempt)
    ensures UndoOne(s, e, a).tenant.used <= s.used + (if a.Refused? then {} else {a.id})
  {
  }

  /** Whatever became of the other entries, an entry whose own undo succeeds is undone at the end. */
  lemma {:induction false} EveryEntryHasItsTurn(
    s0: Tenant, J: Journal, s: Tenant, n: nat, attempts: seq<Attempt>, j: nat)
    requires Accounted(s0, J, s) && n <= |J| && TurnSucceeds(s, n, j, attempts)
    ensures IsUndone(J[j], RollbackFrom(s, J, n, attempts).tenant)
    decreases n
  {
    hide Accounted, UndoOne, IsUndone;
    var s' := UndoOne(s, J[n - 1], attempts[0]).tenant;
    UndoKeepsAccount(s0, J, s, n - 1, attempts[0]);
    if j == n - 1 {
      WillingUndo(s, J[j], attempts[0].id);
      UndoAchieves(s0, J, s, j, attempts[0]);
      RollbackLasts(s0, J, s', n - 1, j, attempts[1..]);
    } else {
      UndoUses(s, J[n - 1], attempts[0]);
      assert attempts[1..][n - 2 - j] == attempts[n - 1 - j];
      EveryEntryHasItsTurn(s0, J, s', n - 1, attempts[1..], j);
    }
  }

  // ---------- a stopped run sends nothing more ----------

  /**
   A run stops for good at one entry: the ones before it are marked as sent, the ones after it
   are as they were planned.
   */
  lemma {:induction false} StopsForGood(t: Tenant, J: Journal, i: nat, cuts: seq<Cut>) returns (m: nat)
    requires i <= |J|
    ensures i <= m <= |J| && (ApplyFrom(t, J, i, cuts).stopped <==> m < |J|)
    ensures var after := ApplyFrom(t, J, i, cuts).journal;
      && |after| == |J|
      && (forall j :: i <= j < m ==> after[j].attempted && (J[j].verb.Post? ==> after[j].created.Some?))
      && (forall j :: 0 <= j < |J| && (j < i || m < j) ==> after[j] == J[j])
    decreases |J| - i
  {
    m := i;
    if i < |J| && i < |cuts| {
      var sent := SendOne(t, J[i], cuts[i]);
      SendMarks(t, J[i], cuts[i]);
      hide SendOne;
      if sent.finished { m := StopsForGood(sent.tenant, J[i := sent.entry], i + 1, cuts); }
    }
  }

  lemma SendMarks(t: Tenant, e: Entry, cut: Cut)
    ensures SendOne(t, e, cut).finished ==>
      SendOne(t, e, cut).entry.attempted && (e.verb.Post? ==> SendOne(t, e, cut).entry.created.Some?)
  {
  }
}
