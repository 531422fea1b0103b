/**
 What `apply` and `rollback` do to the tenant and to the journal on disk, with a fault able to
 strike at every save and every request.
 */
module McpRun {
  import opened Prelude
  import opened JsonTree
  import opened McpTenant
  import opened McpPlan

  /**
   How far one write of a run got. Only the tenant and the file survive a stop, so these are all
   the distinguishable stopping points: before the first save (`Unmarked`), after it (`Marked`),
   after the resolved client id is saved with the request unsent or refused (`Prepared`), after
   the request landed but before its answer was saved (`Landed`), or past the last save.
   */
  datatype Cut = Finished(id: string) | Unmarked | Marked | Prepared | Landed(id: string)

  datatype Run = Run(tenant: Tenant, journal: Journal, stopped: bool)

  /** The client id a grant is posted with: a metadata URL becomes its CIMD client's id. */
  ghost function Resolve(t: Tenant, client: Json): Option<Json> {
    if client.Str? && IsUrl(client.s) then
      match Find(t, ClientKey(client))
      case Some(c) => Some(Str(c.id))
      case None => None
    else Some(client)
  }

  /** The entry as it is sent, or None when its client is not registered. */
  ghost function Ready(t: Tenant, e: Entry): Option<Entry> {
    if e.verb.Post? && e.path.Grants? && ClientId in e.data then
      match Resolve(t, e.data[ClientId])
      case Some(c) => Some(e.(data := e.data[ClientId := c]))
      case None => None
    else Some(e)
  }

  ghost function Answered(t: Tenant, e: Entry, id: string): Entry {
    if e.verb.Post? then e.(created := Some(Answer(t, e.Request(), id))) else e
  }

  /** One write: the tenant and the journal entry it leaves, and whether the run goes on. */
  datatype Sent = Sent(tenant: Tenant, entry: Entry, finished: bool)

  ghost function SendOne(t: Tenant, e: Entry, cut: Cut): Sent {
    if cut.Unmarked? then Sent(t, e, false) else
      var marked := e.(attempted := true);
      match Ready(t, marked)
      case None => Sent(t, marked, false)
      case Some(ready) =>
        if cut.Marked? then Sent(t, marked, false)
        else if cut.Prepared? || !Accepts(t, ready.Request(), cut.id) then Sent(t, ready, false)
        else if cut.Landed? then Sent(Effect(t, ready.Request(), cut.id), ready, false)
        else Sent(Effect(t, ready.Request(), cut.id), Answered(t, ready, cut.id), true)
  }

  /** A run from entry `i` on; a run with no cut left is killed before its next write. */
  ghost function ApplyFrom(t: Tenant, journal: Journal, i: nat, cuts: seq<Cut>): Run
    requires i <= |journal|
    decreases |journal| - i
  {
    if i == |journal| then Run(t, journal, false)
    else if i >= |cuts| then Run(t, journal, true)
    else
      var sent := SendOne(t, journal[i], cuts[i]);
      var journal' := journal[i := sent.entry];
      if sent.finished then ApplyFrom(sent.tenant, journal', i + 1, cuts)
      else Run(sent.tenant, journal', true)
  }

  /** What an entry's write makes, or what its delete removed, is looked up by this key. */
  function EntryKey(e: Entry): Key {
    match e.verb
    case Post =>
      if e.path.Apis? then (if Identifier in e.data then ApiKey(e.data[Identifier]) else NoKey)
      else if e.path.Registrations? then
        (if ExternalClientId in e.data then ClientKey(e.data[ExternalClientId]) else NoKey)
      else GrantKeyOf(e.data)
    case Delete => if e.previous.Some? then GrantKeyOf(e.previous.value) else NoKey
    case Patch => NoKey
  }

  ghost function FindCreated(t: Tenant, e: Entry): Option<Path> {
    if EntryKey(e) == NoKey then None else Find(t, EntryKey(e))
  }

  /** The one request that undoes an entry, if it needs any. */
  ghost function UndoRequest(t: Tenant, e: Entry): Option<Request> {
    match e.verb
    case Post =>
      var created := if e.created.Some? then e.created else if e.attempted then FindCreated(t, e) else None;
      (match created
       case Some(p) => Some(Request(Delete, p, map[]))
       case None => None)
    case Delete =>
      if e.attempted && e.previous.Some? && FindCreated(t, e).None?
      then Some(Request(Post, Grants, e.previous.value)) else None
    case Patch =>
      if e.previous.Some? then Some(Request(Patch, e.path, e.previous.value)) else None
  }

  /** How one undo fares: it succeeds, is refused, or lands with its answer lost. */
  datatype Attempt = Succeeds(id: string) | Refused | AnswerLost(id: string)

  datatype Undone = Undone(tenant: Tenant, ok: bool)

  /** A resource already gone counts as undone, except where a new one must be created. */
  ghost function UndoOne(t: Tenant, e: Entry, a: Attempt): Undone {
    match UndoRequest(t, e)
    case None => Undone(t, !a.Refused?)
    case Some(r) =>
      if a.Refused? then Undone(t, false)
      else if Accepts(t, r, a.id) then Undone(Effect(t, r, a.id), a.Succeeds?)
      else Undone(t, a.Succeeds? && !r.verb.Post?)
  }

  datatype Rollback = Rollback(tenant: Tenant, failures: nat)

  /**
   Undoes the first `n` entries, last first; every entry is attempted whatever failed before.
   Attempts are listed in the order they are made; a rollback without one is killed there.
   */
  ghost function RollbackFrom(t: Tenant, journal: Journal, n: nat, attempts: seq<Attempt>): Rollback
    requires n <= |journal|
    decreases n
  {
    if n == 0 then Rollback(t, 0)
    else if attempts == [] then Rollback(t, n)
    else
      var u := UndoOne(t, journal[n - 1], attempts[0]);
      var rest := RollbackFrom(u.tenant, journal, n - 1, attempts[1..]);
      Rollback(rest.tenant, rest.failures + if u.ok then 0 else 1)
  }

  /** Any number of rollbacks of one journal, each failing or dying anywhere. */
  ghost function Rollbacks(t: Tenant, journal: Journal, tries: seq<seq<Attempt>>): Tenant
    decreases |tries|
  {
    if tries == [] then t
    else Rollbacks(RollbackFrom(t, journal, |journal|, tries[0]).tenant, journal, tries[1..])
  }
}
