/** Runs and rollbacks in any order: what none of them may touch is never touched. */
module McpHistory {
  import opened Prelude
  import opened JsonTree
  import opened McpTenant
  import opened McpPlan
  import opened McpRun
  import opened McpRecovery
  import opened McpApply
  import opened McpPlanned
  import opened McpConvergence

  /** A tenant, and the journals that runs have left on disk. */
  datatype World = World(tenant: Tenant, journals: seq<Journal>)

  /** A run of `apply`, or a rollback of any journal there is, each of them stopping anywhere. */
  datatype Action = Apply(run: Invocation) | RollBack(journal: nat, attempts: seq<Attempt>)

  ghost function Act(w: World, a: Action): World {
    match a
    case Apply(r) =>
      if !WellFormed(w.tenant) || !Plannable(w.tenant, r.cfg) then w else
        var run := ApplyFrom(w.tenant, Plan(w.tenant, r.cfg, r.listing), 0, r.cuts);
        World(run.tenant, w.journals + [run.journal])
    case RollBack(k, attempts) =>
      if k >= |w.journals| then w
      else w.(tenant := RollbackFrom(w.tenant, w.journals[k], |w.journals[k]|, attempts).tenant)
  }

  ghost predicate AllPossible(w: World, actions: seq<Action>)
    decreases |actions|
  {
    actions != [] ==>
      && (actions[0].Apply? ==> ConfigOk(actions[0].run.cfg) && ListsGrants(w.tenant, actions[0].run.listing))
      && AllPossible(Act(w, actions[0]), actions[1..])
  }

  ghost function AfterActions(w: World, actions: seq<Action>): World
    decreases |actions|
  {
    if actions == [] then w else AfterActions(Act(w, actions[0]), actions[1..])
  }

  // ---------- entries whose undoing cannot touch a grant ----------

  /** Undoing the entry leaves grant `p`, whose fields are `f`, and the tenant's order alone. */
  predicate Harmless(e: Entry, p: Path, f: Fields, used: set<string>) {
    match e.verb
    case Patch => e.path != p && (e.previous.Some? ==> e.previous.value.Keys !! IDENTITY)
    case Post =>
      && (e.created.Some? ==> HasId(e.created.value) && e.created.value != p)
      && (EntryKey(e) == NoKey || EntryKey(e) != KeyOf(p, f))
    case Delete =>
      e.previous.Some? && ClientId in e.previous.value ==>
        var client := e.previous.value[ClientId];
        client.Str? && client.s in used && !IsUrl(client.s)
  }

  ghost predicate AllHarmless(J: Journal, p: Path, f: Fields, used: set<string>) {
    forall i :: 0 <= i < |J| ==> Harmless(J[i], p, f, used)
  }

  lemma HarmlessLasts(e: Entry, p: Path, f: Fields, used: set<string>, more: set<string>)
    requires Harmless(e, p, f, used) && used <= more
    ensures Harmless(e, p, f, more)
  {
  }

  /** What a step that must leave grant `p` alone keeps. */
  ghost predicate Spared(s: Tenant, s': Tenant, p: Path) {
    && WellFormed(s') && p in s'.docs && p in s.docs && s'.docs[p] == s.docs[p] && s.used <= s'.used
    && forall cfg :: Managed(s', cfg, p) ==> Managed(s, cfg, p)
  }

  lemma DeleteSpares(s: Tenant, p: Path, q: Path)
    requires WellFormed(s) && p in s.docs && p.Grant? && q != p && HasId(q)
    ensures Spared(s, s.(docs := s.docs - {q}), p)
  {
  }

  lemma PatchKeepsIdentity(s: Tenant, q: Path, data: Fields, r: Path)
    requires q in s.docs && r in s.docs && data.Keys !! IDENTITY && DocOk(s, r)
    ensures var s' := s.(docs := s.docs[q := s.docs[q] + data]);
      && KeyOf(r, s'.docs[r]) == KeyOf(r, s.docs[r]) && DocOk(s', r)
      && IsCimd(s'.docs[r]) == IsCimd(s.docs[r])
  {
  }

  lemma PatchSpares(s: Tenant, p: Path, q: Path, data: Fields)
    requires WellFormed(s) && p in s.docs && p.Grant? && q in s.docs && q != p && data.Keys !! IDENTITY
    ensures Spared(s, s.(docs := s.docs[q := s.docs[q] + data]), p)
  {
    var s' := s.(docs := s.docs[q := s.docs[q] + data]);
    forall r | r in s.docs
      ensures KeyOf(r, s'.docs[r]) == KeyOf(r, s.docs[r]) && DocOk(s', r) && IsCimd(s'.docs[r]) == IsCimd(s.docs[r])
    {
      assert DocOk(s, r);
      PatchKeepsIdentity(s, q, data, r);
    }
    hide DocOk, KeyOf, IsCimd;
  }

  lemma NewGrantIsUnique(s: Tenant, data: Fields, id: string)
    requires UniqueKeys(s) && Grant(id) !in s.docs
    requires GrantKeyOf(data) == NoKey || !Taken(s, GrantKeyOf(data))
    ensures UniqueKeys(s.(docs := s.docs[Grant(id) := data], used := s.used + {id}))
  {
    assert forall r :: r in s.docs && KeyOf(r, s.docs[r]) == GrantKeyOf(data) ==> Holds(s, GrantKeyOf(data), r);
    hide GrantKeyOf;
  }

  lemma GrantSpares(s: Tenant, p: Path, data: Fields, id: string)
    requires WellFormed(s) && p in s.docs && p.Grant? && Fresh(s, id)
    requires GrantKeyOf(data) == NoKey || !Taken(s, GrantKeyOf(data))
    requires NamesClient(s, data)
    ensures Spared(s, s.(docs := s.docs[Grant(id) := data], used := s.used + {id}), p)
  {
    var s' := s.(docs := s.docs[Grant(id) := data], used := s.used + {id});
    assert forall r :: r in s.docs ==> DocOk(s, r);
    NewGrantIsUnique(s, data, id);
    hide UniqueKeys, KeyOf, GrantKeyOf;
    assert forall r :: r in s.docs ==> s'.docs[r] == s.docs[r];
  }

  lemma UndoSpares(s: Tenant, e: Entry, a: Attempt, p: Path)
    requires WellFormed(s) && p in s.docs && p.Grant? && Harmless(e, p, s.docs[p], s.used)
    ensures Spared(s, UndoOne(s, e, a).tenant, p)
  {
    hide WellFormed, KeyOf;
    match UndoRequest(s, e) {
      case None =>
      case Some(r) =>
        if !a.Refused? && Accepts(s, r, a.id) {
          match e.verb {
            case Post => FoundHasId(s, e); DeleteSpares(s, p, r.path);
            case Patch => PatchSpares(s, p, r.path, r.data);
            case Delete => GrantSpares(s, p, r.data, a.id);
          }
        }
    }
    NothingSpares(s, p);
  }

  lemma NothingSpares(s: Tenant, p: Path)
    requires p in s.docs
    ensures WellFormed(s) ==> Spared(s, s, p)
  {
  }

  lemma FoundHasId(s: Tenant, e: Entry)
    ensures FindCreated(s, e).Some? ==>
      HasId(FindCreated(s, e).value) && Holds(s, EntryKey(e), FindCreated(s, e).value) && EntryKey(e) != NoKey
  {
  }

  lemma {:induction false} RollbackSpares(s: Tenant, J: Journal, n: nat, attempts: seq<Attempt>, p: Path)
    requires WellFormed(s) && p in s.docs && p.Grant? && n <= |J| && AllHarmless(J, p, s.docs[p], s.used)
    ensures Spared(s, RollbackFrom(s, J, n, attempts).tenant, p)
    decreases n
  {
    hide WellFormed, UndoOne, Harmless, Managed;
    NothingSpares(s, p);
    if n > 0 && attempts != [] {
      var s' := UndoOne(s, J[n - 1], attempts[0]).tenant;
      UndoSpares(s, J[n - 1], attempts[0], p);
      forall i | 0 <= i < |J| ensures Harmless(J[i], p, s.docs[p], s'.used) {
        HarmlessLasts(J[i], p, s.docs[p], s.used, s'.used);
      }
      RollbackSpares(s', J, n - 1, attempts[1..], p);
    }
  }

  // ---------- a run leaves a harmless journal ----------

  lemma EntryIsHarmless(t: Tenant, cfg: Config, e0: Entry, e: Entry, p: Path)
    requires WellFormed(t) && EntryOk(t, e) && Fits(t, cfg, e0) && Ran(e0, e)
    requires p.Grant? && p in t.docs && !Managed(t, cfg, p)
    ensures Harmless(e, p, t.docs[p], t.used)
  {
    hide Managed, UniqueKeys, Stale, Desired;
    assert DocOk(t, p);
    match e.verb
    case Post => assert Holds(t, KeyOf(p, t.docs[p]), p);
    case Delete => assert DocOk(t, e.path);
    case Patch =>
  }

  lemma RunSpares(t: Tenant, r: Invocation, p: Path)
    requires WellFormed(t) && ConfigOk(r.cfg) && Plannable(t, r.cfg) && ListsGrants(t, r.listing)
    requires p.Grant? && p in t.docs && !Managed(t, r.cfg, p)
    ensures var run := ApplyFrom(t, Plan(t, r.cfg, r.listing), 0, r.cuts);
      Spared(t, run.tenant, p) && AllHarmless(run.journal, p, t.docs[p], run.tenant.used)
  {
    hide Plan, ApplyFrom, Managed, Harmless, Fits, Ran, EntryOk, UniqueKeys;
    var J := Plan(t, r.cfg, r.listing);
    hide WellFormed;
    var run := ApplyFrom(t, J, 0, r.cuts);
    InvokeKeeps(t, r, p);
    RunRanFrom(t, r.cfg, r.listing, r.cuts);
    forall i | 0 <= i < |run.journal| ensures Harmless(run.journal[i], p, t.docs[p], run.tenant.used) {
      EntryIsOk(t, run.journal, run.tenant, i);
      EntryIsHarmless(t, r.cfg, J[i], run.journal[i], p);
      HarmlessLasts(run.journal[i], p, t.docs[p], t.used, run.tenant.used);
    }
  }

  // ---------- the theorem ----------

  ghost predicate Safe(w: World, p: Path) {
    && WellFormed(w.tenant) && p in w.tenant.docs
    && forall k :: 0 <= k < |w.journals| ==> AllHarmless(w.journals[k], p, w.tenant.docs[p], w.tenant.used)
  }

  lemma ActSpares(w: World, a: Action, p: Path)
    requires Safe(w, p) && p.Grant?
    requires a.Apply? ==>
      ConfigOk(a.run.cfg) && ListsGrants(w.tenant, a.run.listing) && !Managed(w.tenant, a.run.cfg, p)
    ensures Safe(Act(w, a), p) && Spared(w.tenant, Act(w, a).tenant, p)
  {
    hide WellFormed, Managed, Plan, ApplyFrom, RollbackFrom, Harmless;
    NothingSpares(w.tenant, p);
    match a {
      case Apply(r) => if Plannable(w.tenant, r.cfg) { RunSpares(w.tenant, r, p); }
      case RollBack(k, attempts) =>
        if k < |w.journals| { RollbackSpares(w.tenant, w.journals[k], |w.journals[k]|, attempts, p); }
    }
    var w' := Act(w, a);
    forall k | 0 <= k < |w.journals| ensures AllHarmless(w.journals[k], p, w.tenant.docs[p], w'.tenant.used) {
      StaysHarmless(w.journals[k], p, w.tenant.docs[p], w.tenant.used, w'.tenant.used);
    }
  }

  lemma StaysHarmless(J: Journal, p: Path, f: Fields, used: set<string>, more: set<string>)
    requires AllHarmless(J, p, f, used) && used <= more
    ensures AllHarmless(J, p, f, more)
  {
    hide Harmless;
    forall i | 0 <= i < |J| { HarmlessLasts(J[i], p, f, used, more); }
  }

  /**
   Over any runs and rollbacks in any order, each stopping anywhere and any journal rolled back
   at any time: a grant that no run's configuration owns is never changed.
   */
  lemma {:induction false} ActionsKeepOthersGrants(w: World, actions: seq<Action>, p: Path)
    requires Safe(w, p) && p.Grant? && AllPossible(w, actions)
    requires forall a :: a in actions && a.Apply? ==> !Managed(w.tenant, a.run.cfg, p)
    ensures var after := AfterActions(w, actions).tenant; p in after.docs && after.docs[p] == w.tenant.docs[p]
    decreases |actions|
  {
    hide WellFormed, Managed, Act, Safe;
    assert p in w.tenant.docs by { SafeHasGrant(w, p); }
    if actions != [] {
      assert actions[0] in actions;
      ActSpares(w, actions[0], p);
      assert forall a :: a in actions[1..] ==> a in actions;
      ActionsKeepOthersGrants(Act(w, actions[0]), actions[1..], p);
    }
  }

  lemma SafeHasGrant(w: World, p: Path)
    requires Safe(w, p)
    ensures p in w.tenant.docs
  {
  }

  /**
   The same, said on the fields: a grant of a tenant no run has touched yet is never changed if,
   for every run, it is on another audience than the run's resource, or is no user grant, or its
   client is not marked CIMD.
   */
  lemma RunsKeepOthersGrants(t: Tenant, actions: seq<Action>, p: Path)
    requires WellFormed(t) && AllPossible(World(t, []), actions) && p.Grant? && p in t.docs
    requires forall a :: a in actions && a.Apply? ==>
      || Audience !in t.docs[p] || t.docs[p][Audience] != Str(a.run.cfg.resource)
      || SubjectType !in t.docs[p] || t.docs[p][SubjectType] != Str("user")
      || (forall c :: Client(c) in t.docs && ClientId in t.docs[p] && t.docs[p][ClientId] == Str(c) ==>
            MetadataType !in t.docs[Client(c)] || t.docs[Client(c)][MetadataType] != Str("cimd"))
    ensures var after := AfterActions(World(t, []), actions).tenant; p in after.docs && after.docs[p] == t.docs[p]
  {
    forall a | a in actions && a.Apply? ensures !Managed(t, a.run.cfg, p) {}
    hide WellFormed, Managed, AfterActions, AllPossible;
    ActionsKeepOthersGrants(World(t, []), actions, p);
  }
}
