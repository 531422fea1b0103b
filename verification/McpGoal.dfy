/** What a run is for and what it may touch, said on the fields of the tenant's resources alone. */
module McpGoal {
  import opened Prelude
  import opened JsonTree
  import opened McpTenant
  import opened McpPlan
  import opened McpRun
  import opened McpRecovery
  import opened McpApply
  import opened McpPlanned
  import opened McpConvergence
  import opened McpFinished
  import opened McpFaultless

  predicate Has(f: Fields, k: Field, v: Json) { k in f && f[k] == v }

  /** The field is in both or in neither, with one value. */
  predicate Agree(f: Fields, g: Fields, k: Field) { (k in f <==> k in g) && (k in f ==> f[k] == g[k]) }

  // ---------- the state a run wants ----------

  predicate SettingsInPlace(s: Tenant) {
    && Settings in s.docs
    && Has(s.docs[Settings], ResourceProfile, Str("compatibility"))
    && Has(s.docs[Settings], CimdSupported, Bool(true))
    && Has(s.docs[Settings], IssParameter, Bool(true))
  }

  /** Users need a grant, clients on their own are denied. */
  predicate Guarded(j: Json) {
    j == Obj([
      Member("user", Obj([Member("policy", Str("require_client_grant"))])),
      Member("client", Obj([Member("policy", Str("deny_all"))]))])
  }

  predicate Described(j: Json, scopes: seq<string>) {
    && j.Arr? && |j.items| == |scopes|
    && forall i :: 0 <= i < |scopes| ==>
      j.items[i] == Obj([Member("value", Str(scopes[i])), Member("description", Str("BoxLite " + scopes[i]))])
  }

  predicate ApiInPlace(s: Tenant, cfg: Config, p: Path) {
    && p.Api? && p in s.docs && Has(s.docs[p], Identifier, Str(cfg.resource))
    && Scopes in s.docs[p] && Described(s.docs[p][Scopes], cfg.scopes)
    && Authorization in s.docs[p] && Guarded(s.docs[p][Authorization])
  }

  predicate Listing(j: Json, scopes: seq<string>) {
    j.Arr? && |j.items| == |scopes| && forall i :: 0 <= i < |scopes| ==> j.items[i] == Str(scopes[i])
  }

  predicate UserGrantOn(f: Fields, client: string, resource: string) {
    Has(f, ClientId, Str(client)) && Has(f, Audience, Str(resource)) && Has(f, SubjectType, Str("user"))
  }

  predicate CimdClientOf(s: Tenant, c: string, url: string) {
    && Client(c) in s.docs && Has(s.docs[Client(c)], ExternalClientId, Str(url))
    && Has(s.docs[Client(c)], MetadataType, Str("cimd"))
  }

  /** The metadata URL is registered as client `c`, and `g` is its user grant with all the scopes. */
  predicate UrlInPlace(s: Tenant, cfg: Config, url: string, c: string, g: Path) {
    && CimdClientOf(s, c, url)
    && g.Grant? && g in s.docs && UserGrantOn(s.docs[g], c, cfg.resource)
    && Scope in s.docs[g] && Listing(s.docs[g][Scope], cfg.scopes)
  }

  predicate ConnectionInPlace(s: Tenant, name: string, p: Path) {
    && p.Connection? && p in s.docs
    && Has(s.docs[p], Name, Str(name)) && Has(s.docs[p], DomainConnection, Bool(true))
  }

  /** A user grant on the resource belongs to a listed URL's client, unless its client is not CIMD. */
  predicate GrantAllowed(s: Tenant, cfg: Config, p: Path)
    requires p in s.docs
  {
    var f := s.docs[p];
    Has(f, Audience, Str(cfg.resource)) && Has(f, SubjectType, Str("user")) && ClientId in f && f[ClientId].Str?
    && Client(f[ClientId].s) in s.docs && Has(s.docs[Client(f[ClientId].s)], MetadataType, Str("cimd"))
    ==> exists u :: u in cfg.clients && Has(s.docs[Client(f[ClientId].s)], ExternalClientId, Str(u))
  }

  ghost predicate ApiDone(s: Tenant, cfg: Config) { exists p :: ApiInPlace(s, cfg, p) }

  ghost predicate UrlDone(s: Tenant, cfg: Config, url: string) { exists c, g :: UrlInPlace(s, cfg, url, c, g) }

  ghost predicate ConnectionDone(s: Tenant, name: string) { exists p :: ConnectionInPlace(s, name, p) }

  /** Everything the configurator is for. */
  ghost predicate InPlace(s: Tenant, cfg: Config) {
    && SettingsInPlace(s)
    && ApiDone(s, cfg)
    && (forall u :: u in cfg.clients ==> UrlDone(s, cfg, u))
    && (forall n :: n in cfg.connections ==> ConnectionDone(s, n))
    && (forall p :: p in s.docs && p.Grant? ==> GrantAllowed(s, cfg, p))
  }

  // ---------- each part of a plan is empty exactly when its part is in place ----------

  lemma SettingsExactly(s: Tenant)
    requires Settings in s.docs
    ensures SettingsWrites(s) == [] <==> SettingsInPlace(s)
  {
    var current := SETTINGS_DEFAULTS + s.docs[Settings];
    assert SettingsWrites(s) == [] <==> Changed(current, DESIRED_SETTINGS) == {};
    UnchangedMeans(current, DESIRED_SETTINGS);
    assert DESIRED_SETTINGS.Keys == {ResourceProfile, CimdSupported, IssParameter};
    hide Changed;
  }

  lemma UnchangedMeans(current: Fields, desired: Fields)
    ensures Changed(current, desired) == {} <==> forall k :: k in desired ==> Has(current, k, desired[k])
  {
    if Changed(current, desired) == {} {
      forall k | k in desired ensures Has(current, k, desired[k]) { assert k !in Changed(current, desired); }
    }
  }

  lemma DescribedIs(j: Json, cfg: Config)
    ensures Described(j, cfg.scopes) <==> j == DesiredApi(cfg)[Scopes]
  {
    var want := DesiredApi(cfg)[Scopes];
    if Described(j, cfg.scopes) { assert j.items == want.items; }
  }

  lemma ListingIs(j: Json, cfg: Config)
    ensures Listing(j, cfg.scopes) <==> j == DesiredGrant(cfg)[Scope]
  {
    var want := DesiredGrant(cfg)[Scope];
    if Listing(j, cfg.scopes) { assert j.items == want.items; }
  }

  lemma ApiExactly(s: Tenant, cfg: Config)
    requires WellFormed(s)
    ensures ApiWrites(s, cfg) == [] <==> ApiDone(s, cfg)
  {
    var key := ApiKey(Str(cfg.resource));
    forall p ensures Holds(s, key, p) <==> p.Api? && p in s.docs && Has(s.docs[p], Identifier, Str(cfg.resource)) {}
    match Find(s, key) {
      case None =>
        forall p ensures !ApiInPlace(s, cfg, p) { assert !Holds(s, key, p); }
      case Some(q) =>
        ApiFieldsExactly(s, cfg, q);
        forall p | ApiInPlace(s, cfg, p) ensures p == q { assert Holds(s, key, p); }
    }
  }

  lemma ApiFieldsExactly(s: Tenant, cfg: Config, q: Path)
    requires q in s.docs && q.Api? && Has(s.docs[q], Identifier, Str(cfg.resource))
    ensures ApiInPlace(s, cfg, q) <==> PatchIfChanged(McpApi, q, s.docs[q], DesiredApi(cfg)) == []
  {
    UnchangedMeans(s.docs[q], DesiredApi(cfg));
    if Scopes in s.docs[q] { DescribedIs(s.docs[q][Scopes], cfg); }
    assert Authorization in s.docs[q] ==>
      (Guarded(s.docs[q][Authorization]) <==> s.docs[q][Authorization] == DesiredApi(cfg)[Authorization]);
    assert DesiredApi(cfg).Keys == {Scopes, Authorization};
    hide Described, DesiredApi, Changed, Guarded;
  }

  lemma RegisteredExactly(s: Tenant, url: string, c: string)
    requires WellFormed(s)
    ensures CimdClientOf(s, c, url) <==> Registered(s, url) == Some(Client(c))
  {
    if CimdClientOf(s, c, url) {
      assert Holds(s, ClientKey(Str(url)), Client(c));
      RegisteredIs(s, url, Client(c));
    }
  }

  lemma GrantHeld(s: Tenant, cfg: Config, c: string, g: Path)
    ensures Holds(s, UserGrant(cfg, c), g) <==> g.Grant? && g in s.docs && UserGrantOn(s.docs[g], c, cfg.resource)
  {
  }

  lemma ScopesExactly(f: Fields, cfg: Config)
    ensures Changed(f, DesiredGrant(cfg)) == {} <==> Scope in f && Listing(f[Scope], cfg.scopes)
  {
    UnchangedMeans(f, DesiredGrant(cfg));
    if Scope in f { ListingIs(f[Scope], cfg); }
    assert DesiredGrant(cfg).Keys == {Scope};
    hide DesiredGrant, Listing, Changed;
  }

  lemma UrlExactly(s: Tenant, cfg: Config, url: string)
    requires WellFormed(s)
    ensures UrlWrites(s, cfg, url) == [] <==> UrlDone(s, cfg, url)
  {
    hide WellFormed, Listing, Changed, DesiredGrant, CimdClientOf, UserGrantOn, Holds, GrantData;
    forall c { RegisteredExactly(s, url, c); }
    forall c, g { GrantHeld(s, cfg, c, g); }
    match Registered(s, url) {
      case None =>
      case Some(p) =>
        match Find(s, UserGrant(cfg, p.id)) {
          case None =>
            forall c, g ensures !UrlInPlace(s, cfg, url, c, g) { assert !Holds(s, UserGrant(cfg, p.id), g); }
          case Some(q) =>
            ScopesExactly(s.docs[q], cfg);
            if Changed(s.docs[q], DesiredGrant(cfg)) == {} { assert UrlInPlace(s, cfg, url, p.id, q); }
            forall c, g | UrlInPlace(s, cfg, url, c, g) ensures c == p.id && g == q { OneGrant(s, cfg, c, g, q); }
        }
    }
  }

  lemma OneGrant(s: Tenant, cfg: Config, c: string, g: Path, q: Path)
    requires WellFormed(s) && (Holds(s, UserGrant(cfg, c), g) && Holds(s, UserGrant(cfg, c), q))
    ensures g == q
  {
  }

  lemma {:induction false} UrlsExactly(s: Tenant, cfg: Config, n: nat)
    requires WellFormed(s) && n <= |cfg.clients|
    ensures AllUrlWrites(s, cfg, n) == [] <==> forall i :: 0 <= i < n ==> UrlDone(s, cfg, cfg.clients[i])
  {
    hide WellFormed, UrlWrites, UrlDone;
    if n > 0 {
      UrlsExactly(s, cfg, n - 1);
      UrlExactly(s, cfg, cfg.clients[n - 1]);
    }
  }

  lemma ConnectionExactly(s: Tenant, name: string)
    requires WellFormed(s) && Taken(s, ConnectionKey(Str(name)))
    ensures var p := Find(s, ConnectionKey(Str(name))).value;
      PatchIfChanged(SignInConnection(name), p, s.docs[p], DESIRED_CONNECTION) == [] <==> ConnectionDone(s, name)
  {
    var key := ConnectionKey(Str(name));
    var p := Find(s, key).value;
    UnchangedMeans(s.docs[p], DESIRED_CONNECTION);
    assert DESIRED_CONNECTION.Keys == {DomainConnection};
    assert p.Connection? && Has(s.docs[p], Name, Str(name));
    hide Changed;
    if Changed(s.docs[p], DESIRED_CONNECTION) == {} { assert ConnectionInPlace(s, name, p); }
    forall q | ConnectionInPlace(s, name, q) ensures q == p { assert Holds(s, key, q); }
  }

  lemma {:induction false} ConnectionsExactly(s: Tenant, cfg: Config, n: nat)
    requires WellFormed(s) && n <= |cfg.connections|
    requires forall i :: 0 <= i < n ==> Taken(s, ConnectionKey(Str(cfg.connections[i])))
    ensures ConnectionWrites(s, cfg, n) == [] <==> forall i :: 0 <= i < n ==> ConnectionDone(s, cfg.connections[i])
  {
    hide WellFormed, PatchIfChanged, ConnectionDone, Taken;
    if n > 0 {
      ConnectionsExactly(s, cfg, n - 1);
      ConnectionExactly(s, cfg.connections[n - 1]);
    }
  }

  lemma GrantExactly(s: Tenant, cfg: Config, p: Path)
    requires WellFormed(s) && p in s.docs && p.Grant?
    ensures Stale(s, cfg, p) <==> !GrantAllowed(s, cfg, p)
  {
    if Managed(s, cfg, p) {
      var c := s.docs[p][ClientId].s;
      forall u { RegisteredExactly(s, u, c); }
      hide WellFormed, Registered;
      assert Listed(s, cfg, c) <==> exists u :: u in cfg.clients && Has(s.docs[Client(c)], ExternalClientId, Str(u)) by {
        assert forall u :: Has(s.docs[Client(c)], ExternalClientId, Str(u)) <==> CimdClientOf(s, c, u);
      }
    }
  }

  lemma {:induction false} RevokesExactly(s: Tenant, cfg: Config, listing: seq<Path>)
    requires WellFormed(s)
    ensures Revokes(s, cfg, listing) == [] <==> forall p :: p in listing && p in s.docs && p.Grant? ==> GrantAllowed(s, cfg, p)
  {
    hide WellFormed, Stale, GrantAllowed;
    if listing != [] {
      var rest, last := listing[..|listing| - 1], listing[|listing| - 1];
      RevokesExactly(s, cfg, rest);
      assert listing == rest + [last];
      assert Revokes(s, cfg, listing) == [] <==> Revokes(s, cfg, rest) == [] && !Stale(s, cfg, last);
      StaleIsGrant(s, cfg, last);
      if last in s.docs && last.Grant? { GrantExactly(s, cfg, last); }
    }
  }

  lemma PartsAreInPlace(s: Tenant, cfg: Config, listing: seq<Path>)
    requires WellFormed(s) && Plannable(s, cfg) && ListsGrants(s, listing)
    ensures SettingsWrites(s) == [] <==> SettingsInPlace(s)
    ensures ApiWrites(s, cfg) == [] <==> ApiDone(s, cfg)
    ensures AllUrlWrites(s, cfg, |cfg.clients|) == [] <==> forall u :: u in cfg.clients ==> UrlDone(s, cfg, u)
    ensures Revokes(s, cfg, listing) == [] <==> forall p :: p in s.docs && p.Grant? ==> GrantAllowed(s, cfg, p)
    ensures ConnectionWrites(s, cfg, |cfg.connections|) == [] <==> forall n :: n in cfg.connections ==> ConnectionDone(s, n)
  {
    SettingsExactly(s);
    ApiExactly(s, cfg);
    UrlsExactly(s, cfg, |cfg.clients|);
    RevokesExactly(s, cfg, listing);
    ConnectionsExactly(s, cfg, |cfg.connections|);
    hide WellFormed, SettingsWrites, ApiWrites, AllUrlWrites, Revokes, ConnectionWrites, SettingsInPlace, ApiDone,
      UrlDone, ConnectionDone, GrantAllowed, Taken, Registered;
  }

  /** There is nothing to write exactly when all that a run is for is in place. */
  lemma NothingToDoExactly(s: Tenant, cfg: Config, listing: seq<Path>)
    requires WellFormed(s) && Plannable(s, cfg) && ListsGrants(s, listing)
    ensures Plan(s, cfg, listing) == [] <==> InPlace(s, cfg)
  {
    PartsAreInPlace(s, cfg, listing);
    PlanInParts(s, cfg, listing);
    hide Plan, SettingsWrites, ApiWrites, AllUrlWrites, Revokes, ConnectionWrites, WellFormed, Plannable, ListsGrants,
      SettingsInPlace, ApiDone, UrlDone, ConnectionDone, GrantAllowed;
  }

  lemma PlanInParts(s: Tenant, cfg: Config, listing: seq<Path>)
    requires Settings in s.docs && Plannable(s, cfg)
    ensures Plan(s, cfg, listing) == [] <==>
      && SettingsWrites(s) == [] && ApiWrites(s, cfg) == [] && AllUrlWrites(s, cfg, |cfg.clients|) == []
      && Revokes(s, cfg, listing) == [] && ConnectionWrites(s, cfg, |cfg.connections|) == []
  {
    hide SettingsWrites, ApiWrites, AllUrlWrites, Revokes, ConnectionWrites, Taken, Registered;
    PartsEmpty(SettingsWrites(s), ApiWrites(s, cfg), AllUrlWrites(s, cfg, |cfg.clients|), Revokes(s, cfg, listing),
               ConnectionWrites(s, cfg, |cfg.connections|));
  }

  lemma PartsEmpty(a: Journal, b: Journal, c: Journal, d: Journal, e: Journal)
    ensures a + b + (c + d) + e == [] <==> a == [] && b == [] && c == [] && d == [] && e == []
  {
    assert |a + b + (c + d) + e| == |a| + |b| + |c| + |d| + |e|;
  }

  /** After a run that finished, all that it is for is in place. */
  lemma FinishedRunIsInPlace(t: Tenant, cfg: Config, listing: seq<Path>, cuts: seq<Cut>)
    requires WellFormed(t) && ConfigOk(cfg) && Plannable(t, cfg) && ListsGrants(t, listing)
    requires !ApplyFrom(t, Plan(t, cfg, listing), 0, cuts).stopped
    ensures InPlace(ApplyFrom(t, Plan(t, cfg, listing), 0, cuts).tenant, cfg)
  {
    hide Plan, ApplyFrom, Running, InPlace, Accounted;
    var s := ApplyFrom(t, Plan(t, cfg, listing), 0, cuts).tenant;
    PlanIsRunning(t, cfg, listing);
    RunIsAccounted(t, Plan(t, cfg, listing), t, 0, cuts);
    AccountedWellFormed(t, ApplyFrom(t, Plan(t, cfg, listing), 0, cuts).journal, s);
    hide WellFormed, ConfigOk, Plannable;
    var again := ListAll(s);
    FinishedRunConverges(t, cfg, listing, cuts, again);
    NothingToDoExactly(s, cfg, again);
  }

  /** Some order in which the server may list its grants. */
  lemma ListAll(s: Tenant) returns (listing: seq<Path>)
    ensures ListsGrants(s, listing)
  {
    var all := set p | p in s.docs && p.Grant?;
    listing := InSomeOrder(all);
  }

  lemma {:induction false} InSomeOrder(all: set<Path>) returns (listing: seq<Path>)
    ensures (forall p :: p in all <==> p in listing)
    ensures forall i, j :: 0 <= i < j < |listing| ==> listing[i] != listing[j]
    decreases |all|
  {
    listing := [];
    if p :| p in all {
      var rest := InSomeOrder(all - {p});
      listing := [p] + rest;
      assert forall q :: q in listing <==> q == p || q in rest;
    }
  }

  /** An API that the run had to make has its name, besides. */
  lemma NewApiIsNamed(t: Tenant, cfg: Config, listing: seq<Path>, cuts: seq<Cut>) returns (q: Path)
    requires WellFormed(t) && ConfigOk(cfg) && Plannable(t, cfg) && ListsGrants(t, listing)
    requires !ApplyFrom(t, Plan(t, cfg, listing), 0, cuts).stopped
    requires forall p :: p in t.docs && p.Api? ==> !Has(t.docs[p], Identifier, Str(cfg.resource))
    ensures var s := ApplyFrom(t, Plan(t, cfg, listing), 0, cuts).tenant;
      && q.Api? && q in s.docs
      && Has(s.docs[q], Identifier, Str(cfg.resource)) && Has(s.docs[q], Name, Str("BoxLite MCP"))
  {
    var J, run := Plan(t, cfg, listing), ApplyFrom(t, Plan(t, cfg, listing), 0, cuts);
    FinishedRun(t, cfg, listing, cuts);
    PlanHolds(t, cfg, listing);
    NoApi(t, cfg);
    hide Plan, ApplyFrom, OnTheWay, WellFormed, ConfigOk, Plannable, ListsGrants, ApiWrites;
    q := MadeApi(t, cfg, J, run.journal, run.tenant);
  }

  lemma MadeApi(t: Tenant, cfg: Config, J: Journal, J': Journal, s: Tenant) returns (q: Path)
    requires OnTheWay(t, cfg, J, J', s, |J|)
    requires Posting(McpApi, Apis, map[Name := Str("BoxLite MCP"), Identifier := Str(cfg.resource)] + DesiredApi(cfg)) in J
    ensures q.Api? && q in s.docs
    ensures Has(s.docs[q], Identifier, Str(cfg.resource)) && Has(s.docs[q], Name, Str("BoxLite MCP"))
  {
    hide OnTheWay, Ran, DesiredApi;
    var e := Posting(McpApi, Apis, map[Name := Str("BoxLite MCP"), Identifier := Str(cfg.resource)] + DesiredApi(cfg));
    var i, found := PostReached(t, cfg, J, J', s, e);
    ApiAsSent(cfg, e, J'[i]);
    DesiredApiKeys(cfg);
    q := found;
  }

  lemma NoApi(t: Tenant, cfg: Config)
    requires forall p :: p in t.docs && p.Api? ==> !Has(t.docs[p], Identifier, Str(cfg.resource))
    ensures ApiWrites(t, cfg)
      == [Posting(McpApi, Apis, map[Name := Str("BoxLite MCP"), Identifier := Str(cfg.resource)] + DesiredApi(cfg))]
  {
    hide DesiredApi;
    forall p ensures !Holds(t, ApiKey(Str(cfg.resource)), p) {}
  }

  lemma DesiredApiKeys(cfg: Config)
    ensures DesiredApi(cfg).Keys == {Scopes, Authorization}
  {
  }

  /** A run without faults gets there. */
  lemma FaultFreeRunIsInPlace(t: Tenant, cfg: Config, listing: seq<Path>, cuts: seq<Cut>)
    requires WellFormed(t) && ConfigOk(cfg) && Plannable(t, cfg) && ListsGrants(t, listing)
    requires FaultFree(t, Plan(t, cfg, listing), 0, cuts)
    ensures InPlace(ApplyFrom(t, Plan(t, cfg, listing), 0, cuts).tenant, cfg)
  {
    hide Plan, ApplyFrom, FaultFree, InPlace, WellFormed, ConfigOk, Plannable;
    FaultFreeRunConverges(t, cfg, listing, cuts, []);
    FinishedRunIsInPlace(t, cfg, listing, cuts);
  }

  /** A plan is made unless Rules run, an unregistered document is rejected, or a connection is missing. */
  lemma PlannableMeans(t: Tenant, cfg: Config)
    requires WellFormed(t)
    ensures Plannable(t, cfg) <==>
      && t.rules == 0
      && (forall u :: u in cfg.clients && u in t.refused ==> exists c :: CimdClientOf(t, c, u))
      && (forall n :: n in cfg.connections ==> exists p: Path :: p.Connection? && p in t.docs && Has(t.docs[p], Name, Str(n)))
  {
    forall u ensures Registered(t, u).Some? <==> exists c :: CimdClientOf(t, c, u) {
      forall c { RegisteredExactly(t, u, c); }
      if Registered(t, u).Some? { assert CimdClientOf(t, Registered(t, u).value.id, u); }
    }
    forall n ensures Taken(t, ConnectionKey(Str(n))) <==>
      exists p: Path :: p.Connection? && p in t.docs && Has(t.docs[p], Name, Str(n))
    {
      forall p ensures Holds(t, ConnectionKey(Str(n)), p) <==> p.Connection? && p in t.docs && Has(t.docs[p], Name, Str(n)) {}
    }
    hide WellFormed, Registered, Taken, CimdClientOf;
  }

  // ---------- what is revoked ----------

  predicate CimdUserGrant(t: Tenant, cfg: Config, p: Path) {
    && p.Grant? && p in t.docs
    && Has(t.docs[p], Audience, Str(cfg.resource)) && Has(t.docs[p], SubjectType, Str("user"))
    && ClientId in t.docs[p] && t.docs[p][ClientId].Str?
    && Client(t.docs[p][ClientId].s) in t.docs
    && Has(t.docs[Client(t.docs[p][ClientId].s)], MetadataType, Str("cimd"))
  }

  /** The journaled copy has the grant's client, audience, scope and subject type. */
  predicate CopiesGrant(f: Fields, copy: Fields) {
    Agree(f, copy, ClientId) && Agree(f, copy, Audience) && Agree(f, copy, Scope) && Agree(f, copy, SubjectType)
  }

  predicate RevokesGrant(t: Tenant, e: Entry, p: Path)
    requires p in t.docs
  {
    e.verb.Delete? && e.path == p && e.previous.Some? && CopiesGrant(t.docs[p], e.previous.value)
  }

  lemma RevokeIs(t: Tenant, cfg: Config, p: Path)
    requires Stale(t, cfg, p)
    ensures CimdUserGrant(t, cfg, p) && !Listed(t, cfg, t.docs[p][ClientId].s) && RevokesGrant(t, Revoke(t, p), p)
  {
  }

  /** Exactly the user grants on the resource of CIMD clients off the list are revoked. */
  lemma {:induction false} RevokesAre(t: Tenant, cfg: Config, listing: seq<Path>)
    ensures forall e :: e in Revokes(t, cfg, listing) ==>
      && e.path in listing && CimdUserGrant(t, cfg, e.path) && !Listed(t, cfg, t.docs[e.path][ClientId].s)
      && RevokesGrant(t, e, e.path)
    ensures forall p :: p in listing && CimdUserGrant(t, cfg, p) && !Listed(t, cfg, t.docs[p][ClientId].s) ==>
      exists e :: e in Revokes(t, cfg, listing) && e.path == p
  {
    if listing != [] {
      var rest, last := listing[..|listing| - 1], listing[|listing| - 1];
      RevokesAre(t, cfg, rest);
      assert listing == rest + [last];
      assert Stale(t, cfg, last) <==> CimdUserGrant(t, cfg, last) && !Listed(t, cfg, t.docs[last][ClientId].s);
      if Stale(t, cfg, last) {
        RevokeIs(t, cfg, last);
        assert Revoke(t, last) in Revokes(t, cfg, listing);
      }
      hide Stale, CimdUserGrant, Listed, RevokesGrant;
      assert forall e :: e in Revokes(t, cfg, rest) ==> e in Revokes(t, cfg, listing);
    }
  }

  // ---------- what a run may touch ----------

  /** The fields of an existing resource that a run may write. */
  function Writable(t: Tenant, cfg: Config, p: Path): set<Field>
    requires p in t.docs
  {
    match p
    case Settings => {ResourceProfile, CimdSupported, IssParameter}
    case Api(_) => if Has(t.docs[p], Identifier, Str(cfg.resource)) then {Scopes, Authorization} else {}
    case Grant(_) => if CimdUserGrant(t, cfg, p) then {Scope} else {}
    case Connection(_) => if exists n :: n in cfg.connections && Has(t.docs[p], Name, Str(n)) then {DomainConnection} else {}
    case _ => {}
  }

  /** What a run may add. */
  predicate Addable(cfg: Config, q: Path, f: Fields) {
    match q
    case Api(_) => Has(f, Identifier, Str(cfg.resource))
    case Client(_) => exists u :: u in cfg.clients && Has(f, ExternalClientId, Str(u))
    case Grant(_) => Has(f, Audience, Str(cfg.resource)) && Has(f, SubjectType, Str("user"))
    case _ => false
  }

  /** An entry writes only what it may. */
  ghost predicate Bounded(t: Tenant, cfg: Config, e: Entry) {
    match e.verb
    case Patch => e.path in t.docs && e.data.Keys <= Writable(t, cfg, e.path)
    case Delete =>
      && CimdUserGrant(t, cfg, e.path)
      && e.previous.Some? && Has(e.previous.value, Audience, Str(cfg.resource)) && Has(e.previous.value, SubjectType, Str("user"))
    case Post =>
      || (e.path.Apis? && Has(e.data, Identifier, Str(cfg.resource)))
      || (e.path.Registrations? && exists u :: u in cfg.clients && Has(e.data, ExternalClientId, Str(u)))
      || (e.path.Grants? && Has(e.data, Audience, Str(cfg.resource)) && Has(e.data, SubjectType, Str("user")))
  }

  ghost predicate AllBounded(t: Tenant, cfg: Config, J: Journal) { forall i :: 0 <= i < |J| ==> Bounded(t, cfg, J[i]) }

  lemma ConcatBounded(t: Tenant, cfg: Config, a: Journal, b: Journal)
    requires AllBounded(t, cfg, a) && AllBounded(t, cfg, b)
    ensures AllBounded(t, cfg, a + b)
  {
    hide Bounded;
  }

  lemma PatchBounded(t: Tenant, cfg: Config, kind: Kind, p: Path, current: Fields, desired: Fields)
    requires p in t.docs && desired.Keys <= Writable(t, cfg, p)
    ensures AllBounded(t, cfg, PatchIfChanged(kind, p, current, desired))
  {
    hide Writable;
  }

  lemma ApiBounded(t: Tenant, cfg: Config)
    ensures AllBounded(t, cfg, ApiWrites(t, cfg))
  {
    assert DesiredApi(cfg).Keys == {Scopes, Authorization};
    hide DesiredApi;
    match Find(t, ApiKey(Str(cfg.resource)))
    case None =>
    case Some(p) => PatchBounded(t, cfg, McpApi, p, t.docs[p], DesiredApi(cfg));
  }

  lemma UrlBounded(t: Tenant, cfg: Config, url: string)
    requires WellFormed(t) && url in cfg.clients
    ensures AllBounded(t, cfg, UrlWrites(t, cfg, url))
  {
    assert DesiredGrant(cfg).Keys == {Scope};
    hide DesiredGrant;
    match Registered(t, url)
    case None =>
    case Some(c) =>
      match Find(t, UserGrant(cfg, c.id))
      case None =>
      case Some(g) =>
        assert Client(t.docs[g][ClientId].s) == c;
        PatchBounded(t, cfg, GrantFor(url), g, t.docs[g], DesiredGrant(cfg));
  }

  lemma {:induction false} UrlsBounded(t: Tenant, cfg: Config, n: nat)
    requires WellFormed(t) && n <= |cfg.clients|
    ensures AllBounded(t, cfg, AllUrlWrites(t, cfg, n))
  {
    hide WellFormed, UrlWrites, AllBounded;
    if n == 0 {
      NothingBounded(t, cfg);
    } else {
      UrlsBounded(t, cfg, n - 1);
      UrlBounded(t, cfg, cfg.clients[n - 1]);
      ConcatBounded(t, cfg, AllUrlWrites(t, cfg, n - 1), UrlWrites(t, cfg, cfg.clients[n - 1]));
    }
  }

  lemma NothingBounded(t: Tenant, cfg: Config)
    ensures AllBounded(t, cfg, [])
  {
  }

  lemma {:induction false} RevokesBounded(t: Tenant, cfg: Config, listing: seq<Path>)
    ensures AllBounded(t, cfg, Revokes(t, cfg, listing))
  {
    if listing != [] {
      var rest, last := listing[..|listing| - 1], listing[|listing| - 1];
      RevokesBounded(t, cfg, rest);
      if Stale(t, cfg, last) {
        assert Bounded(t, cfg, Revoke(t, last));
        hide Bounded, Stale;
        ConcatBounded(t, cfg, Revokes(t, cfg, rest), [Revoke(t, last)]);
      }
    }
  }

  lemma {:induction false} ConnectionsBounded(t: Tenant, cfg: Config, n: nat)
    requires n <= |cfg.connections|
    requires forall i :: 0 <= i < n ==> Taken(t, ConnectionKey(Str(cfg.connections[i])))
    ensures AllBounded(t, cfg, ConnectionWrites(t, cfg, n))
  {
    if n > 0 {
      ConnectionsBounded(t, cfg, n - 1);
      var name := cfg.connections[n - 1];
      var p := Find(t, ConnectionKey(Str(name))).value;
      assert p.Connection? && Has(t.docs[p], Name, Str(name));
      hide Taken;
      PatchBounded(t, cfg, SignInConnection(name), p, t.docs[p], DESIRED_CONNECTION);
      hide PatchIfChanged, Bounded;
      ConcatBounded(t, cfg, ConnectionWrites(t, cfg, n - 1),
                    PatchIfChanged(SignInConnection(name), p, t.docs[p], DESIRED_CONNECTION));
    }
  }

  lemma PlanIsBounded(t: Tenant, cfg: Config, listing: seq<Path>)
    requires WellFormed(t) && Plannable(t, cfg)
    ensures AllBounded(t, cfg, Plan(t, cfg, listing))
  {
    hide PatchIfChanged, ApiWrites, AllUrlWrites, Revokes, ConnectionWrites, AllBounded;
    PatchBounded(t, cfg, TenantSettings, Settings, SETTINGS_DEFAULTS + t.docs[Settings], DESIRED_SETTINGS);
    ApiBounded(t, cfg);
    UrlsBounded(t, cfg, |cfg.clients|);
    RevokesBounded(t, cfg, listing);
    ConnectionsBounded(t, cfg, |cfg.connections|);
    hide WellFormed, Plannable;
    var a, b, c, d, e := SettingsWrites(t), ApiWrites(t, cfg), AllUrlWrites(t, cfg, |cfg.clients|),
      Revokes(t, cfg, listing), ConnectionWrites(t, cfg, |cfg.connections|);
    ConcatBounded(t, cfg, a, b);
    ConcatBounded(t, cfg, c, d);
    ConcatBounded(t, cfg, a + b, c + d);
    ConcatBounded(t, cfg, a + b + (c + d), e);
  }

  lemma RanStaysBounded(t: Tenant, cfg: Config, e0: Entry, e: Entry)
    requires Bounded(t, cfg, e0) && Ran(e0, e)
    ensures Bounded(t, cfg, e)
  {
    hide Writable, CimdUserGrant;
  }

  lemma BoundedRun(t: Tenant, cfg: Config, J: Journal, s: Tenant)
    requires Accounted(t, J, s) && AllBounded(t, cfg, J)
    ensures forall p :: p in t.docs && p !in s.docs ==> CimdUserGrant(t, cfg, p)
    ensures forall p, k :: p in t.docs && p in s.docs && k !in Writable(t, cfg, p) ==> Agree(t.docs[p], s.docs[p], k)
    ensures forall q :: q in s.docs && q !in t.docs ==> Addable(cfg, q, s.docs[q])
  {
    hide WellFormed, JournalOk, CreatedAlone, CreatedUsed, CimdUserGrant, Writable;
    forall p | p in t.docs && p !in s.docs ensures CimdUserGrant(t, cfg, p) {
      var i :| 0 <= i < |J| && J[i].verb.Delete? && J[i].attempted && J[i].path == p;
      assert Bounded(t, cfg, J[i]);
    }
    forall p, k | p in t.docs && p in s.docs && k !in Writable(t, cfg, p) ensures Agree(t.docs[p], s.docs[p], k) {
      forall i | 0 <= i < |J| ensures !(J[i].verb.Patch? && J[i].path == p && k in J[i].data) { assert Bounded(t, cfg, J[i]); }
      assert !Patched(J, p, k);
    }
    forall q | q in s.docs && q !in t.docs ensures Addable(cfg, q, s.docs[q]) {
      var i :| 0 <= i < |J| && Explains(s, J[i], q);
      assert Bounded(t, cfg, J[i]);
      ExplainedIsAddable(t, cfg, J[i], s, q);
    }
  }

  lemma ExplainedIsAddable(t: Tenant, cfg: Config, e: Entry, s: Tenant, q: Path)
    requires Bounded(t, cfg, e) && q in s.docs && Explains(s, e, q)
    ensures Addable(cfg, q, s.docs[q])
  {
    hide CimdUserGrant;
  }

  /**
   However far a run gets: it removes nothing but user grants of CIMD clients on its resource,
   changes nothing but the fields it is for, and adds nothing but what its configuration lists.
   */
  lemma RunTouchesOnly(t: Tenant, cfg: Config, listing: seq<Path>, cuts: seq<Cut>)
    requires WellFormed(t) && ConfigOk(cfg) && Plannable(t, cfg) && ListsGrants(t, listing)
    ensures var s := ApplyFrom(t, Plan(t, cfg, listing), 0, cuts).tenant;
      && (forall p :: p in t.docs && p !in s.docs ==> CimdUserGrant(t, cfg, p))
      && (forall p, k :: p in t.docs && p in s.docs && k !in Writable(t, cfg, p) ==> Agree(t.docs[p], s.docs[p], k))
      && (forall q :: q in s.docs && q !in t.docs ==> Addable(cfg, q, s.docs[q]))
  {
    hide Plan, ApplyFrom, Accounted, Bounded, CimdUserGrant, Writable, Addable;
    var J, run := Plan(t, cfg, listing), ApplyFrom(t, Plan(t, cfg, listing), 0, cuts);
    PlanIsBounded(t, cfg, listing);
    RunRanFrom(t, cfg, listing, cuts);
    forall i | 0 <= i < |run.journal| ensures Bounded(t, cfg, run.journal[i]) { RanStaysBounded(t, cfg, J[i], run.journal[i]); }
    BoundedRun(t, cfg, run.journal, run.tenant);
  }
}
