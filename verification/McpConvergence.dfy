/** A finished run leaves nothing to plan, and no run touches a grant that is not its own. */
module McpConvergence {
  import opened JsonTree
  import opened McpTenant
  import opened McpPlan
  import opened McpRun
  import opened McpRecovery
  import opened McpApply
  import opened McpPlanned

  // ---------- a journal after its run, next to the plan it started from ----------

  /** The same write: only a posted grant's client id may have been resolved. */
  ghost predicate Ran(e0: Entry, e: Entry) {
    && e.verb == e0.verb && e.path == e0.path && e.kind == e0.kind && e.previous == e0.previous
    && (e.data == e0.data
        || (e.verb.Post? && e.path.Grants? && ClientId in e.data && e.data == e0.data[ClientId := e.data[ClientId]]))
  }

  ghost predicate AllRan(J: Journal, J': Journal) {
    |J'| == |J| && forall i :: 0 <= i < |J| ==> Ran(J[i], J'[i])
  }

  lemma SendRuns(s: Tenant, e0: Entry, e: Entry, cut: Cut)
    requires Ran(e0, e)
    ensures Ran(e0, SendOne(s, e, cut).entry)
  {
  }

  lemma {:induction false} RunRuns(J: Journal, J': Journal, s: Tenant, i: nat, cuts: seq<Cut>)
    requires AllRan(J, J') && i <= |J'|
    ensures AllRan(J, ApplyFrom(s, J', i, cuts).journal)
    decreases |J'| - i
  {
    hide SendOne, Ran;
    if i < |J'| && i < |cuts| {
      var sent := SendOne(s, J'[i], cuts[i]);
      SendRuns(s, J[i], J'[i], cuts[i]);
      if sent.finished { RunRuns(J, J'[i := sent.entry], sent.tenant, i + 1, cuts); }
    }
  }

  /** What every stopped or finished run leaves behind, in terms of its plan. */
  ghost predicate RanFrom(t: Tenant, cfg: Config, J: Journal, J': Journal, s: Tenant) {
    WellFormed(t) && AllFit(t, cfg, J) && AllRan(J, J') && Accounted(t, J', s)
  }

  lemma RunRanFrom(t: Tenant, cfg: Config, listing: seq<Path>, cuts: seq<Cut>)
    requires WellFormed(t) && ConfigOk(cfg) && Plannable(t, cfg) && ListsGrants(t, listing)
    ensures var run := ApplyFrom(t, Plan(t, cfg, listing), 0, cuts);
      RanFrom(t, cfg, Plan(t, cfg, listing), run.journal, run.tenant)
  {
    hide Plan, ApplyFrom, Accounted, Running, Fits;
    var J := Plan(t, cfg, listing);
    PlanFits(t, cfg, listing);
    PlanIsRunning(t, cfg, listing);
    RunIsAccounted(t, J, t, 0, cuts);
    RunRuns(J, J, t, 0, cuts);
  }

  // ---------- grants that are not the run's ----------

  lemma NotInJournal(t: Tenant, cfg: Config, J: Journal, J': Journal, p: Path)
    requires AllFit(t, cfg, J) && AllRan(J, J') && p.Grant? && !Managed(t, cfg, p)
    ensures !Deleted(J', p)
    ensures forall k :: !Patched(J', p, k)
  {
    forall i | 0 <= i < |J'| ensures J'[i].path != p {
      assert Ran(J[i], J'[i]) && Fits(t, cfg, J[i]);
    }
  }

  lemma UntouchedIsKept(t: Tenant, J: Journal, s: Tenant, p: Path)
    requires Accounted(t, J, s) && p in t.docs && !Deleted(J, p) && forall k :: !Patched(J, p, k)
    ensures p in s.docs && s.docs[p] == t.docs[p]
  {
  }

  /** A run, wherever it stops, leaves every grant alone that is not its own. */
  lemma UnmanagedGrantKept(t: Tenant, cfg: Config, listing: seq<Path>, cuts: seq<Cut>, p: Path)
    requires WellFormed(t) && ConfigOk(cfg) && Plannable(t, cfg) && ListsGrants(t, listing)
    requires p.Grant? && p in t.docs && !Managed(t, cfg, p)
    ensures var s := ApplyFrom(t, Plan(t, cfg, listing), 0, cuts).tenant;
      p in s.docs && s.docs[p] == t.docs[p]
  {
    hide Plan, ApplyFrom, Accounted, Managed;
    var run := ApplyFrom(t, Plan(t, cfg, listing), 0, cuts);
    RunRanFrom(t, cfg, listing, cuts);
    NotInJournal(t, cfg, Plan(t, cfg, listing), run.journal, p);
    UntouchedIsKept(t, run.journal, run.tenant, p);
  }

  /**
   The same, said on its fields: a grant is left alone that is on another audience, is no user
   grant, or whose client is not marked CIMD.
   */
  lemma OthersGrantKept(t: Tenant, cfg: Config, listing: seq<Path>, cuts: seq<Cut>, p: Path)
    requires WellFormed(t) && ConfigOk(cfg) && Plannable(t, cfg) && ListsGrants(t, listing)
    requires p.Grant? && p in t.docs
    requires
      || Audience !in t.docs[p] || t.docs[p][Audience] != Str(cfg.resource)
      || SubjectType !in t.docs[p] || t.docs[p][SubjectType] != Str("user")
      || (forall c :: Client(c) in t.docs && ClientId in t.docs[p] && t.docs[p][ClientId] == Str(c) ==>
            MetadataType !in t.docs[Client(c)] || t.docs[Client(c)][MetadataType] != Str("cimd"))
    ensures var s := ApplyFrom(t, Plan(t, cfg, listing), 0, cuts).tenant;
      p in s.docs && s.docs[p] == t.docs[p]
  {
    assert !Managed(t, cfg, p);
    hide Plan, ApplyFrom, Managed, WellFormed, ConfigOk, Plannable;
    UnmanagedGrantKept(t, cfg, listing, cuts, p);
  }

  lemma IdentityKept(t: Tenant, J: Journal, s: Tenant, p: Path, k: Field)
    requires Accounted(t, J, s) && p in t.docs && p in s.docs && k in IDENTITY
    ensures k in s.docs[p] <==> k in t.docs[p]
    ensures k in t.docs[p] ==> s.docs[p][k] == t.docs[p][k]
  {
    assert !Patched(J, p, k);
  }

  lemma OldIds(t: Tenant, J: Journal, s: Tenant, q: Path)
    requires Accounted(t, J, s) && q in s.docs && HasId(q) && q.id in t.used
    ensures q in t.docs
  {
  }

  /** No run makes an existing grant its own: a new client has an id no grant names yet. */
  lemma ManagedBefore(t: Tenant, cfg: Config, J: Journal, s: Tenant, p: Path)
    requires Accounted(t, J, s) && p in t.docs && Managed(s, cfg, p)
    ensures Managed(t, cfg, p) && t.docs[p][ClientId] == s.docs[p][ClientId]
  {
    var c := Client(s.docs[p][ClientId].s);
    AccountedWellFormed(t, J, s);
    assert DocOk(t, p);
    IdentityKept(t, J, s, p, ClientId);
    IdentityKept(t, J, s, p, Audience);
    IdentityKept(t, J, s, p, SubjectType);
    OldIds(t, J, s, c);
    IdentityKept(t, J, s, c, MetadataType);
  }

  /** One run of the configurator; one whose plan is refused writes nothing. */
  datatype Invocation = Invocation(cfg: Config, listing: seq<Path>, cuts: seq<Cut>)

  ghost function Invoke(t: Tenant, r: Invocation): Tenant {
    if WellFormed(t) && Plannable(t, r.cfg) then ApplyFrom(t, Plan(t, r.cfg, r.listing), 0, r.cuts).tenant else t
  }

  lemma InvokeKeeps(t: Tenant, r: Invocation, p: Path)
    requires WellFormed(t) && ConfigOk(r.cfg) && ListsGrants(t, r.listing)
    requires p.Grant? && p in t.docs && !Managed(t, r.cfg, p)
    ensures var s := Invoke(t, r);
      && WellFormed(s) && p in s.docs && s.docs[p] == t.docs[p]
      && forall cfg :: Managed(s, cfg, p) ==> Managed(t, cfg, p)
  {
    if Plannable(t, r.cfg) {
      hide Plan, ApplyFrom, Accounted, Managed;
      var run := ApplyFrom(t, Plan(t, r.cfg, r.listing), 0, r.cuts);
      RunRanFrom(t, r.cfg, r.listing, r.cuts);
      UnmanagedGrantKept(t, r.cfg, r.listing, r.cuts, p);
      AccountedWellFormed(t, run.journal, run.tenant);
      forall cfg | Managed(run.tenant, cfg, p) ensures Managed(t, cfg, p) {
        ManagedBefore(t, cfg, run.journal, run.tenant, p);
      }
    }
  }
}
