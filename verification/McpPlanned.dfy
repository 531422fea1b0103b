/** What holds of every entry a run plans, and of the plan as a whole. */
module McpPlanned {
  import opened Prelude
  import opened JsonTree
  import opened McpTenant
  import opened McpPlan
  import opened McpRun
  import opened McpRecovery
  import opened McpApply

  ghost predicate ConfigOk(cfg: Config) {
    && (forall u :: u in cfg.clients ==> IsUrl(u))
    && (forall i, j :: 0 <= i < j < |cfg.clients| ==> cfg.clients[i] != cfg.clients[j])
  }

  /** The grant is the run's to change: a user grant on its audience of a CIMD client. */
  ghost predicate OwnGrantsOnly(t: Tenant, cfg: Config, e: Entry) {
    && (e.path.Grant? ==> Managed(t, cfg, e.path))
    && (e.verb.Delete? ==> Stale(t, cfg, e.path))
    && (e.verb.Patch? && e.path.Grant? ==> !Stale(t, cfg, e.path))
    && (e.verb.Post? && e.path.Grants? ==> e.kind.GrantFor? && e.kind.url in cfg.clients)
  }

  ghost predicate Fits(t: Tenant, cfg: Config, e: Entry) {
    && EntryOk(t, e) && Tied(t, t, e) && !e.attempted && e.created.None?
    && OwnGrantsOnly(t, cfg, e)
    && (e.verb.Patch? ==> forall k :: k in e.data ==> k in Desired(cfg, e.path) && e.data[k] == Desired(cfg, e.path)[k])
  }

  ghost predicate AllFit(t: Tenant, cfg: Config, J: Journal) {
    forall i :: 0 <= i < |J| ==> Fits(t, cfg, J[i])
  }

  ghost predicate Clash(a: Entry, b: Entry) {
    || (a.verb.Post? && b.verb.Post? && a.kind == b.kind)
    || (a.verb.Delete? && b.verb.Delete? && a.path == b.path)
  }

  ghost predicate NoClash(J: Journal) {
    forall i, j :: 0 <= i < j < |J| ==> !Clash(J[i], J[j])
  }

  /** Every `post` is a registration or a grant for one of the first `n` metadata URLs. */
  ghost predicate UrlPosts(cfg: Config, J: Journal, n: nat)
    requires n <= |cfg.clients|
  {
    forall i :: 0 <= i < |J| && J[i].verb.Post? ==>
      (J[i].kind.RegisterClient? || J[i].kind.GrantFor?) && J[i].kind.url in cfg.clients[..n]
  }

  ghost predicate Lacks(J: Journal, verb: Verb) { forall i :: 0 <= i < |J| ==> J[i].verb != verb }

  lemma ConcatFits(t: Tenant, cfg: Config, a: Journal, b: Journal)
    requires AllFit(t, cfg, a) && AllFit(t, cfg, b) && NoClash(a) && NoClash(b)
    requires forall i, j :: 0 <= i < |a| && 0 <= j < |b| ==> !Clash(a[i], b[j])
    ensures AllFit(t, cfg, a + b) && NoClash(a + b)
  {
    hide Fits, Clash;
  }

  lemma PatchFits(t: Tenant, cfg: Config, kind: Kind, p: Path, current: Fields)
    requires WellFormed(t) && p in t.docs
    requires current == (if p.Settings? then SETTINGS_DEFAULTS + t.docs[p] else t.docs[p])
    requires p.Grant? ==> Managed(t, cfg, p) && !Stale(t, cfg, p)
    ensures var J := PatchIfChanged(kind, p, current, Desired(cfg, p));
      AllFit(t, cfg, J) && NoClash(J) && Lacks(J, Post) && Lacks(J, Delete)
  {
    hide ApiScope, DesiredApi, Texts, Managed, Stale, Desired;
    assert DocOk(t, p);
    hide WellFormed;
    DesiredKeepsIdentity(cfg, p);
    assert forall k :: k in SETTINGS_DEFAULTS ==> k == IssParameter;
  }

  lemma DesiredKeepsIdentity(cfg: Config, p: Path)
    ensures Desired(cfg, p).Keys !! IDENTITY
  {
  }

  lemma RegisteredIsTaken(t: Tenant, url: string)
    requires WellFormed(t)
    ensures Registered(t, url).None? ==> !Taken(t, ClientKey(Str(url)))
    ensures Registered(t, url).Some? ==> Find(t, ClientKey(Str(url))) == Registered(t, url)
  {
    if p :| Holds(t, ClientKey(Str(url)), p) { assert DocOk(t, p); }
  }

  lemma RegistrationFits(t: Tenant, cfg: Config, url: string)
    requires WellFormed(t) && Registered(t, url).None?
    ensures Fits(t, cfg, Posting(RegisterClient(url), Registrations, map[ExternalClientId := Str(url)]))
  {
    RegisteredIsTaken(t, url);
  }

  lemma GrantFits(t: Tenant, cfg: Config, url: string, client: string)
    requires url in cfg.clients && IsUrl(url) && !Taken(t, UserGrant(cfg, client))
    requires (client == url && !Taken(t, ClientKey(Str(url)))) || Holds(t, ClientKey(Str(url)), Client(client))
    ensures Fits(t, cfg, Posting(GrantFor(url), Grants, GrantData(cfg, client)))
  {
  }

  lemma NewUrlFits(t: Tenant, cfg: Config, n: nat)
    requires WellFormed(t) && ConfigOk(cfg) && n < |cfg.clients| && Registered(t, cfg.clients[n]).None?
    ensures var J := UrlWrites(t, cfg, cfg.clients[n]);
      AllFit(t, cfg, J) && NoClash(J) && Lacks(J, Delete) && UrlPosts(cfg, J, n + 1)
      && forall i :: 0 <= i < |J| && J[i].verb.Post? ==> J[i].kind.url == cfg.clients[n]
  {
    hide ApiScope, DesiredApi, Texts;
    var url := cfg.clients[n];
    RegisteredIsTaken(t, url);
    forall g ensures !Holds(t, UserGrant(cfg, url), g) { assert g in t.docs ==> DocOk(t, g); }
    RegistrationFits(t, cfg, url);
    GrantFits(t, cfg, url, url);
    hide Fits, WellFormed;
  }

  lemma KnownUrlFits(t: Tenant, cfg: Config, n: nat, c: Path)
    requires WellFormed(t) && ConfigOk(cfg) && n < |cfg.clients| && Registered(t, cfg.clients[n]) == Some(c)
    ensures var J := UrlWrites(t, cfg, cfg.clients[n]);
      AllFit(t, cfg, J) && NoClash(J) && Lacks(J, Delete) && UrlPosts(cfg, J, n + 1)
      && forall i :: 0 <= i < |J| && J[i].verb.Post? ==> J[i].kind.url == cfg.clients[n]
  {
    hide ApiScope, DesiredApi, Texts;
    var url := cfg.clients[n];
    RegisteredIsTaken(t, url);
    match Find(t, UserGrant(cfg, c.id)) {
      case None =>
        GrantFits(t, cfg, url, c.id);
        hide Fits, WellFormed;
      case Some(g) => PatchFits(t, cfg, GrantFor(url), g, t.docs[g]);
    }
  }

  lemma UrlFits(t: Tenant, cfg: Config, n: nat)
    requires WellFormed(t) && ConfigOk(cfg) && n < |cfg.clients|
    ensures var J := UrlWrites(t, cfg, cfg.clients[n]);
      AllFit(t, cfg, J) && NoClash(J) && Lacks(J, Delete) && UrlPosts(cfg, J, n + 1)
      && forall i :: 0 <= i < |J| && J[i].verb.Post? ==> J[i].kind.url == cfg.clients[n]
  {
    hide WellFormed, Fits, UrlWrites;
    match Registered(t, cfg.clients[n]) {
      case None => NewUrlFits(t, cfg, n);
      case Some(c) => KnownUrlFits(t, cfg, n, c);
    }
  }

  lemma {:induction false} UrlsFit(t: Tenant, cfg: Config, n: nat)
    requires WellFormed(t) && ConfigOk(cfg) && n <= |cfg.clients|
    ensures var J := AllUrlWrites(t, cfg, n);
      AllFit(t, cfg, J) && NoClash(J) && Lacks(J, Delete) && UrlPosts(cfg, J, n)
  {
    hide Fits, UrlWrites, WellFormed;
    if n > 0 {
      UrlsFit(t, cfg, n - 1);
      UrlFits(t, cfg, n - 1);
      var a, b := AllUrlWrites(t, cfg, n - 1), UrlWrites(t, cfg, cfg.clients[n - 1]);
      assert cfg.clients[..n] == cfg.clients[..n - 1] + [cfg.clients[n - 1]];
      ConcatFits(t, cfg, a, b);
    }
  }

  lemma {:induction false} RevokesFit(t: Tenant, cfg: Config, listing: seq<Path>)
    requires WellFormed(t)
    requires forall i, j :: 0 <= i < j < |listing| ==> listing[i] != listing[j]
    ensures var J := Revokes(t, cfg, listing);
      AllFit(t, cfg, J) && NoClash(J) && Lacks(J, Post) && Lacks(J, Patch)
      && forall i :: 0 <= i < |J| ==> J[i].path in listing
  {
    if listing != [] {
      var rest, last := listing[..|listing| - 1], listing[|listing| - 1];
      RevokesFit(t, cfg, rest);
      if Stale(t, cfg, last) {
        assert Fits(t, cfg, Revoke(t, last));
        ConcatFits(t, cfg, Revokes(t, cfg, rest), [Revoke(t, last)]);
      }
    }
  }

  lemma {:induction false} ConnectionsFit(t: Tenant, cfg: Config, n: nat)
    requires WellFormed(t) && n <= |cfg.connections|
    requires forall i :: 0 <= i < n ==> Taken(t, ConnectionKey(Str(cfg.connections[i])))
    ensures var J := ConnectionWrites(t, cfg, n);
      AllFit(t, cfg, J) && NoClash(J) && Lacks(J, Post) && Lacks(J, Delete)
  {
    hide Fits, PatchIfChanged, WellFormed;
    if n > 0 {
      ConnectionsFit(t, cfg, n - 1);
      var name := cfg.connections[n - 1];
      var p := Find(t, ConnectionKey(Str(name))).value;
      PatchFits(t, cfg, SignInConnection(name), p, t.docs[p]);
      ConcatFits(t, cfg, ConnectionWrites(t, cfg, n - 1),
                 PatchIfChanged(SignInConnection(name), p, t.docs[p], DESIRED_CONNECTION));
    }
  }

  lemma ApiFits(t: Tenant, cfg: Config)
    requires WellFormed(t)
    ensures var J := ApiWrites(t, cfg);
      AllFit(t, cfg, J) && NoClash(J) && Lacks(J, Delete)
      && forall i :: 0 <= i < |J| && J[i].verb.Post? ==> J[i].kind.McpApi?
  {
    match Find(t, ApiKey(Str(cfg.resource))) {
      case None =>
      case Some(p) => PatchFits(t, cfg, McpApi, p, t.docs[p]);
    }
  }

  lemma SettingsFit(t: Tenant, cfg: Config)
    requires WellFormed(t)
    ensures var J := SettingsWrites(t);
      AllFit(t, cfg, J) && NoClash(J) && Lacks(J, Post) && Lacks(J, Delete)
  {
    PatchFits(t, cfg, TenantSettings, Settings, SETTINGS_DEFAULTS + t.docs[Settings]);
  }

  lemma PlanFits(t: Tenant, cfg: Config, listing: seq<Path>)
    requires WellFormed(t) && ConfigOk(cfg) && Plannable(t, cfg) && ListsGrants(t, listing)
    ensures AllFit(t, cfg, Plan(t, cfg, listing)) && NoClash(Plan(t, cfg, listing))
  {
    hide Fits, PatchIfChanged, ApiWrites, AllUrlWrites, Revokes, ConnectionWrites, Clash, NoClash, AllFit,
      DesiredApi, ApiScope, Texts;
    SettingsFit(t, cfg);
    ApiFits(t, cfg);
    UrlsFit(t, cfg, |cfg.clients|);
    RevokesFit(t, cfg, listing);
    ConnectionsFit(t, cfg, |cfg.connections|);
    hide WellFormed, Plannable, Taken, ListsGrants, ConfigOk;
    var a, b, c, d, e := SettingsWrites(t), ApiWrites(t, cfg), AllUrlWrites(t, cfg, |cfg.clients|),
      Revokes(t, cfg, listing), ConnectionWrites(t, cfg, |cfg.connections|);
    ApartByVerb(a, b);
    ConcatFits(t, cfg, a, b);
    ApartByVerb(c, d);
    ConcatFits(t, cfg, c, d);
    ApartByKind(a + b, c + d);
    ConcatFits(t, cfg, a + b, c + d);
    ApartByVerb(a + b + (c + d), e);
    ConcatFits(t, cfg, a + b + (c + d), e);
  }

  lemma ApartByVerb(a: Journal, b: Journal)
    requires Lacks(a, Post) || Lacks(b, Post)
    requires Lacks(a, Delete) || Lacks(b, Delete)
    ensures forall i, j :: 0 <= i < |a| && 0 <= j < |b| ==> !Clash(a[i], b[j])
  {
  }

  lemma ApartByKind(a: Journal, b: Journal)
    requires Lacks(a, Delete)
    requires forall i :: 0 <= i < |a| && a[i].verb.Post? ==> a[i].kind.McpApi?
    requires forall i :: 0 <= i < |b| && b[i].verb.Post? ==> !b[i].kind.McpApi?
    ensures forall i, j :: 0 <= i < |a| && 0 <= j < |b| ==> !Clash(a[i], b[j])
  {
  }

  lemma FittingIsOk(t: Tenant, cfg: Config, J: Journal)
    requires WellFormed(t) && AllFit(t, cfg, J) && NoClash(J)
    ensures JournalOk(t, J) && AllTied(t, t, J) && UntouchedFrom(J, 0)
    ensures forall p, k :: Patched(J, p, k) ==> k !in IDENTITY
  {
    hide EntryOk, Tied;
    forall i, j | 0 <= i < j < |J| ensures !Conflict(J[i], J[j]) {
      assert Fits(t, cfg, J[i]) && Fits(t, cfg, J[j]) && !Clash(J[i], J[j]);
      if J[i].verb.Post? && J[j].verb.Post? { KindsTellKeysApart(t, t, J[i], J[j]); }
    }
    forall p, k | Patched(J, p, k) ensures k !in IDENTITY {
      var i :| 0 <= i < |J| && J[i].verb.Patch? && J[i].path == p && k in J[i].data;
      PatchedField(t, cfg, J[i], k);
    }
  }

  lemma PatchedField(t: Tenant, cfg: Config, e: Entry, k: Field)
    requires Fits(t, cfg, e) && e.verb.Patch? && k in e.data
    ensures k !in IDENTITY
  {
  }

  lemma PlanIsRunning(t: Tenant, cfg: Config, listing: seq<Path>)
    requires WellFormed(t) && ConfigOk(cfg) && Plannable(t, cfg) && ListsGrants(t, listing)
    ensures Running(t, Plan(t, cfg, listing), t, 0)
  {
    var J := Plan(t, cfg, listing);
    PlanFits(t, cfg, listing);
    FittingIsOk(t, cfg, J);
    hide Plan, Fits, WellFormed, JournalOk, AllTied, NoClash, AllFit;
  }

  /**
   Wherever a run stops, and however many rollbacks of its journal fail or die before one
   finishes without a failure, that one brings the tenant back to its state before the run.
   */
  lemma StoppedRunRollsBack(
    t: Tenant, cfg: Config, listing: seq<Path>, cuts: seq<Cut>, tries: seq<seq<Attempt>>, last: seq<Attempt>)
    requires WellFormed(t) && ConfigOk(cfg) && Plannable(t, cfg) && ListsGrants(t, listing)
    requires var run := ApplyFrom(t, Plan(t, cfg, listing), 0, cuts);
      RollbackFrom(Rollbacks(run.tenant, run.journal, tries), run.journal, |run.journal|, last).failures == 0
    ensures var run := ApplyFrom(t, Plan(t, cfg, listing), 0, cuts);
      Restored(t, RollbackFrom(Rollbacks(run.tenant, run.journal, tries), run.journal, |run.journal|, last).tenant)
  {
    hide Accounted, Running, Restored, ApplyFrom, RollbackFrom, Rollbacks, Plan;
    var run := ApplyFrom(t, Plan(t, cfg, listing), 0, cuts);
    PlanIsRunning(t, cfg, listing);
    RunIsAccounted(t, Plan(t, cfg, listing), t, 0, cuts);
    RollbackRestores(t, run.journal, run.tenant, tries, last);
  }
}
