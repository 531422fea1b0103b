/** The journal entries a run plans, read off the tenant. */
module McpPlan {
  import opened Prelude
  import opened JsonTree
  import opened McpTenant

  datatype Kind =
    | TenantSettings | McpApi
    | RegisterClient(url: string) | GrantFor(url: string) | RevokeGrant(client: Json)
    | SignInConnection(name: string)

  /** One write, with what rollback needs to undo it. */
  datatype Entry = Entry(
    kind: Kind, verb: Verb, path: Path, data: Fields,
    previous: Option<Fields>, attempted: bool, created: Option<Path>)
  {
    function Request(): Request { McpTenant.Request.Request(verb, path, data) }
  }

  type Journal = seq<Entry>

  datatype Config = Config(resource: string, connections: seq<string>, scopes: seq<string>, clients: seq<string>)

  datatype PlanError = ActiveRules | DocumentRefused(url: string) | ConnectionMissing(name: string)

  function Texts(ss: seq<string>): seq<Json> { seq(|ss|, i requires 0 <= i < |ss| => Str(ss[i])) }

  function ApiScope(scope: string): Json {
    Obj([Member("value", Str(scope)), Member("description", Str("BoxLite " + scope))])
  }

  const DESIRED_SETTINGS: Fields :=
    map[ResourceProfile := Str("compatibility"), CimdSupported := Bool(true), IssParameter := Bool(true)]

  /** What a tenant that never set a flag is taken to report. */
  const SETTINGS_DEFAULTS: Fields := map[IssParameter := Bool(false)]

  const AUTHORIZATION :=
    Obj([
      Member("user", Obj([Member("policy", Str("require_client_grant"))])),
      Member("client", Obj([Member("policy", Str("deny_all"))]))])

  function DesiredApi(cfg: Config): Fields {
    map[Scopes := Arr(seq(|cfg.scopes|, i requires 0 <= i < |cfg.scopes| => ApiScope(cfg.scopes[i]))),
        Authorization := AUTHORIZATION]
  }

  function DesiredGrant(cfg: Config): Fields { map[Scope := Arr(Texts(cfg.scopes))] }

  const DESIRED_CONNECTION: Fields := map[DomainConnection := Bool(true)]

  /** The fields a run wants at a path it patches. */
  function Desired(cfg: Config, p: Path): Fields {
    match p
    case Settings => DESIRED_SETTINGS
    case Api(_) => DesiredApi(cfg)
    case Grant(_) => DesiredGrant(cfg)
    case Connection(_) => DESIRED_CONNECTION
    case _ => map[]
  }

  function Changed(current: Fields, desired: Fields): set<Field> {
    set k | k in desired && (k !in current || current[k] != desired[k])
  }

  /** A `patch` of the fields whose values differ, carrying their previous values. */
  function PatchIfChanged(kind: Kind, path: Path, current: Fields, desired: Fields): Journal {
    var changed := Changed(current, desired);
    if changed == {} then [] else
      [Entry(kind, Patch, path, map k | k in changed :: desired[k],
             Some(map k | k in changed :: if k in current then current[k] else Null), false, None)]
  }

  function Posting(kind: Kind, path: Path, data: Fields): Entry {
    Entry(kind, Post, path, data, None, false, None)
  }

  function SettingsWrites(t: Tenant): Journal
    requires Settings in t.docs
  {
    PatchIfChanged(TenantSettings, Settings, SETTINGS_DEFAULTS + t.docs[Settings], DESIRED_SETTINGS)
  }

  ghost function ApiWrites(t: Tenant, cfg: Config): Journal {
    match Find(t, ApiKey(Str(cfg.resource)))
    case None =>
      [Posting(McpApi, Apis, map[Name := Str("BoxLite MCP"), Identifier := Str(cfg.resource)] + DesiredApi(cfg))]
    case Some(p) => PatchIfChanged(McpApi, p, t.docs[p], DesiredApi(cfg))
  }

  /** The registered CIMD client of a metadata URL. */
  ghost function Registered(t: Tenant, url: string): (r: Option<Path>)
    ensures r.Some? ==> Holds(t, ClientKey(Str(url)), r.value) && r.value.Client? && IsCimd(t.docs[r.value])
  {
    if exists p :: Holds(t, ClientKey(Str(url)), p) && IsCimd(t.docs[p])
    then var p :| Holds(t, ClientKey(Str(url)), p) && IsCimd(t.docs[p]); Some(p) else None
  }

  function UserGrant(cfg: Config, client: string): Key {
    GrantKey(Str(client), Str(cfg.resource), Str("user"))
  }

  function GrantData(cfg: Config, client: string): Fields {
    map[ClientId := Str(client), Audience := Str(cfg.resource), SubjectType := Str("user")] + DesiredGrant(cfg)
  }

  /** The writes for one allowlisted metadata URL. */
  ghost function UrlWrites(t: Tenant, cfg: Config, url: string): Journal {
    match Registered(t, url)
    case None =>
      [Posting(RegisterClient(url), Registrations, map[ExternalClientId := Str(url)]),
       Posting(GrantFor(url), Grants, GrantData(cfg, url))]
    case Some(c) =>
      match Find(t, UserGrant(cfg, c.id))
      case None => [Posting(GrantFor(url), Grants, GrantData(cfg, c.id))]
      case Some(g) => PatchIfChanged(GrantFor(url), g, t.docs[g], DesiredGrant(cfg))
  }

  ghost function AllUrlWrites(t: Tenant, cfg: Config, n: nat): Journal
    requires n <= |cfg.clients|
  {
    if n == 0 then [] else AllUrlWrites(t, cfg, n - 1) + UrlWrites(t, cfg, cfg.clients[n - 1])
  }

  /** A client id of a CIMD client whose metadata URL is on the list. */
  ghost predicate Listed(t: Tenant, cfg: Config, id: string) {
    exists u :: u in cfg.clients && Registered(t, u) == Some(Client(id))
  }

  /** A user grant on this audience of a CIMD client: the only grants a run owns. */
  predicate Managed(t: Tenant, cfg: Config, p: Path) {
    && p.Grant? && p in t.docs
    && var f := t.docs[p];
    && SubjectType in f && f[SubjectType] == Str("user")
    && Audience in f && f[Audience] == Str(cfg.resource)
    && ClientId in f && f[ClientId].Str?
    && Client(f[ClientId].s) in t.docs && IsCimd(t.docs[Client(f[ClientId].s)])
  }

  ghost predicate Stale(t: Tenant, cfg: Config, p: Path) {
    Managed(t, cfg, p) && !Listed(t, cfg, t.docs[p][ClientId].s)
  }

  const GRANT_FIELDS := {ClientId, Audience, Scope, SubjectType}

  /** The fields a revoked grant is journaled with. */
  function GrantCopy(f: Fields): Fields { map k | k in f && k in GRANT_FIELDS :: f[k] }

  function Revoke(t: Tenant, p: Path): Entry
    requires p in t.docs && ClientId in t.docs[p]
  {
    Entry(RevokeGrant(t.docs[p][ClientId]), Delete, p, map[], Some(GrantCopy(t.docs[p])), false, None)
  }

  /** Revocations, in the order the server lists the grants. */
  ghost function Revokes(t: Tenant, cfg: Config, listing: seq<Path>): Journal {
    if listing == [] then [] else
      Revokes(t, cfg, listing[..|listing| - 1])
      + (if Stale(t, cfg, listing[|listing| - 1]) then [Revoke(t, listing[|listing| - 1])] else [])
  }

  ghost function ConnectionWrites(t: Tenant, cfg: Config, n: nat): Journal
    requires n <= |cfg.connections|
    requires forall i :: 0 <= i < n ==> Taken(t, ConnectionKey(Str(cfg.connections[i])))
  {
    if n == 0 then [] else
      var p := Find(t, ConnectionKey(Str(cfg.connections[n - 1]))).value;
      ConnectionWrites(t, cfg, n - 1)
      + PatchIfChanged(SignInConnection(cfg.connections[n - 1]), p, t.docs[p], DESIRED_CONNECTION)
  }

  /** The server lists every grant once. */
  predicate ListsGrants(t: Tenant, listing: seq<Path>) {
    && (forall p :: p in t.docs && p.Grant? ==> p in listing)
    && (forall i, j :: 0 <= i < j < |listing| ==> listing[i] != listing[j])
  }

  ghost predicate Plannable(t: Tenant, cfg: Config) {
    && t.rules == 0
    && (forall u :: u in cfg.clients && u in t.refused ==> Registered(t, u).Some?)
    && (forall c :: c in cfg.connections ==> Taken(t, ConnectionKey(Str(c))))
  }

  ghost function Plan(t: Tenant, cfg: Config, listing: seq<Path>): Journal
    requires Settings in t.docs && Plannable(t, cfg)
  {
    SettingsWrites(t) + ApiWrites(t, cfg)
    + (AllUrlWrites(t, cfg, |cfg.clients|) + Revokes(t, cfg, listing))
    + ConnectionWrites(t, cfg, |cfg.connections|)
  }
}
