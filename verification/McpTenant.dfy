/**
 The part of an Auth0 tenant the MCP configurator touches, and what the Management API does
 with one request. A resource is its JSON fields; its id is its path.
 */
module McpTenant {
  import opened Prelude
  import opened JsonTree

  datatype Field =
    | ClientId | Audience | SubjectType | Scope
    | Identifier | Name | Scopes | Authorization
    | ExternalClientId | MetadataType
    | DomainConnection
    | ResourceProfile | CimdSupported | IssParameter
    | Other(name: string)

  type Fields = map<Field, Json>

  datatype Path =
    | Settings
    | Apis | Api(id: string)
    | Registrations | Client(id: string)
    | Grants | Grant(id: string)
    | Connection(id: string)

  /** What the API looks a resource up by, apart from its id. */
  datatype Key =
    | NoKey
    | ApiKey(identifier: Json)
    | ClientKey(url: Json)
    | GrantKey(client: Json, audience: Json, subject: Json)
    | ConnectionKey(name: Json)

  /**
   `used` holds every id the tenant ever issued or mentions, so an id is never issued twice.
   `rules` counts enabled Rules; `refused` holds the metadata documents a preview rejects.
   */
  datatype Tenant = Tenant(docs: map<Path, Fields>, used: set<string>, rules: nat, refused: set<string>)

  datatype Verb = Post | Patch | Delete

  datatype Request = Request(verb: Verb, path: Path, data: Fields)

  predicate IsUrl(s: string) { "https://" <= s }

  predicate IsCollection(p: Path) { p.Apis? || p.Registrations? || p.Grants? }

  predicate HasId(p: Path) { p.Api? || p.Client? || p.Grant? || p.Connection? }

  function GrantKeyOf(f: Fields): Key {
    if ClientId in f && Audience in f && SubjectType in f
    then GrantKey(f[ClientId], f[Audience], f[SubjectType]) else NoKey
  }

  function KeyOf(p: Path, f: Fields): Key {
    match p
    case Api(_) => if Identifier in f then ApiKey(f[Identifier]) else NoKey
    case Client(_) => if ExternalClientId in f then ClientKey(f[ExternalClientId]) else NoKey
    case Grant(_) => GrantKeyOf(f)
    case Connection(_) => if Name in f then ConnectionKey(f[Name]) else NoKey
    case _ => NoKey
  }

  predicate Holds(t: Tenant, key: Key, p: Path) {
    p in t.docs && KeyOf(p, t.docs[p]) == key
  }

  ghost predicate Taken(t: Tenant, key: Key) { exists p :: Holds(t, key, p) }

  /** The answer to a lookup by key. */
  ghost function Find(t: Tenant, key: Key): (r: Option<Path>)
    ensures r.Some? ==> Holds(t, key, r.value)
    ensures r.None? <==> !Taken(t, key)
  {
    if Taken(t, key) then var p :| Holds(t, key, p); Some(p) else None
  }

  predicate IsCimd(f: Fields) { MetadataType in f && f[MetadataType] == Str("cimd") }

  ghost predicate UniqueKeys(t: Tenant) {
    forall p, q {:trigger KeyOf(p, t.docs[p]), KeyOf(q, t.docs[q])} ::
      p in t.docs && q in t.docs && KeyOf(p, t.docs[p]) == KeyOf(q, t.docs[q]) != NoKey ==> p == q
  }

  /** A grant names a client id (never a metadata URL) that the tenant knows of. */
  predicate NamesClient(t: Tenant, f: Fields) {
    ClientId in f ==> f[ClientId].Str? && f[ClientId].s in t.used && !IsUrl(f[ClientId].s)
  }

  predicate DocOk(t: Tenant, p: Path)
    requires p in t.docs
  {
    && !IsCollection(p)
    && (HasId(p) ==> p.id in t.used)
    && (p.Client? ==> !IsUrl(p.id) && (ExternalClientId in t.docs[p] ==> IsCimd(t.docs[p])))
    && (p.Grant? ==> NamesClient(t, t.docs[p]))
  }

  /**
   What Auth0 guarantees of a tenant, with the one assumption that no client has two grants
   for one audience and subject type (part of `UniqueKeys`).
   */
  ghost predicate WellFormed(t: Tenant) {
    && Settings in t.docs
    && UniqueKeys(t)
    && forall p :: p in t.docs ==> DocOk(t, p)
  }

  predicate Fresh(t: Tenant, id: string) { id !in t.used && !IsUrl(id) }

  /**
   Whether a request can land. `id` is the id the tenant would give a new resource; one that
   is not fresh stands for a refusal.
   */
  predicate Accepts(t: Tenant, r: Request, id: string) {
    match r.verb
    case Post => IsCollection(r.path) && Fresh(t, id)
    case Patch => r.path in t.docs
    case Delete => r.path in t.docs
  }

  /** The resource a `post` makes. */
  function Made(path: Path, id: string): Path {
    if path.Apis? then Api(id) else if path.Registrations? then Client(id) else Grant(id)
  }

  /** Its fields: a registration copies the metadata URL and is marked as a CIMD client. */
  function MadeFields(r: Request): Fields {
    if r.path.Registrations? then
      (if ExternalClientId in r.data then map[ExternalClientId := r.data[ExternalClientId]] else map[])
      + map[MetadataType := Str("cimd")]
    else r.data
  }

  /** The path a `post` answers with: registering a known URL again answers its client. */
  ghost function Answer(t: Tenant, r: Request, id: string): Path {
    if r.path.Registrations? && KeyOf(Client(id), MadeFields(r)) != NoKey
       && Taken(t, KeyOf(Client(id), MadeFields(r)))
    then Find(t, KeyOf(Client(id), MadeFields(r))).value
    else Made(r.path, id)
  }

  /** The tenant after an accepted request has landed. */
  ghost function Effect(t: Tenant, r: Request, id: string): Tenant
    requires Accepts(t, r, id)
  {
    match r.verb
    case Post =>
      if Answer(t, r, id) != Made(r.path, id) then t
      else t.(docs := t.docs[Made(r.path, id) := MadeFields(r)], used := t.used + {id})
    case Patch => t.(docs := t.docs[r.path := t.docs[r.path] + r.data])
    case Delete => t.(docs := t.docs - {r.path})
  }
}
