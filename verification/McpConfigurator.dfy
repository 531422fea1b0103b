/** The configurator itself: the remote tenant and the journal file it changes step by step. */
module McpConfigurator {
  import opened Prelude
  import opened JsonTree
  import opened McpTenant
  import opened McpPlan
  import opened McpRun
  import opened McpRecovery
  import opened McpApply
  import opened McpPlanned
  import opened McpGoal
  import opened McpRestored

  /** The Management API client, bound to one tenant. */
  class Remote {
    var tenant: Tenant

    constructor (t: Tenant)
      ensures tenant == t
    {
      tenant := t;
    }

    /** A `get` that looks a resource up by key. */
    method Lookup(key: Key) returns (p: Option<Path>)
      requires UniqueKeys(tenant) && key != NoKey
      ensures p == Find(tenant, key)
    {
      if q :| q in tenant.docs && KeyOf(q, tenant.docs[q]) == key {
        p := Some(q);
        assert Holds(tenant, key, q);
      } else {
        p := None;
        assert forall q :: !Holds(tenant, key, q);
      }
    }

    /** A write that lands; `id` is the id the tenant gives a new resource. */
    method Send(r: Request, id: string) returns (answer: Path)
      requires UniqueKeys(tenant) && Accepts(tenant, r, id)
      modifies this
      ensures tenant == Effect(old(tenant), r, id)
      ensures r.verb.Post? ==> answer == Answer(old(tenant), r, id)
    {
      answer := r.path;
      match r.verb {
        case Post =>
          var made, fields := Made(r.path, id), MadeFields(r);
          answer := made;
          if r.path.Registrations? && KeyOf(made, fields) != NoKey {
            var known := Lookup(KeyOf(made, fields));
            if known.Some? { answer := known.value; }
          }
          if answer == made {
            tenant := tenant.(docs := tenant.docs[made := fields], used := tenant.used + {id});
          }
        case Patch =>
          tenant := tenant.(docs := tenant.docs[r.path := tenant.docs[r.path] + r.data]);
        case Delete =>
          tenant := tenant.(docs := tenant.docs - {r.path});
      }
    }

    /** The entry with its client id resolved, or None when that client is not registered. */
    method Prepare(e: Entry) returns (ready: Option<Entry>)
      requires UniqueKeys(tenant)
      ensures ready == Ready(tenant, e)
    {
      if e.verb.Post? && e.path.Grants? && ClientId in e.data && e.data[ClientId].Str? && IsUrl(e.data[ClientId].s) {
        var client := Lookup(ClientKey(e.data[ClientId]));
        match client {
          case Some(c) =>
            assert KeyOf(c, tenant.docs[c]).ClientKey?;
            ready := Some(e.(data := e.data[ClientId := Str(c.id)]));
          case None => ready := None;
        }
      } else {
        assert e.verb.Post? && e.path.Grants? && ClientId in e.data ==> e.data[ClientId := e.data[ClientId]] == e.data;
        ready := Some(e);
      }
    }

    /** Reverts one journaled write; false stands for the error that is collected. */
    method Undo(e: Entry, a: Attempt) returns (ok: bool)
      requires UniqueKeys(tenant)
      modifies this
      ensures Undone(tenant, ok) == UndoOne(old(tenant), e, a)
    {
      var found := None;
      if e.attempted && EntryKey(e) != NoKey { found := Lookup(EntryKey(e)); }
      var request := None;
      match e.verb {
        case Post =>
          var created := if e.created.Some? then e.created else found;
          if created.Some? { request := Some(Request(Delete, created.value, map[])); }
        case Delete =>
          if e.attempted && e.previous.Some? && found.None? { request := Some(Request(Post, Grants, e.previous.value)); }
        case Patch =>
          if e.previous.Some? { request := Some(Request(Patch, e.path, e.previous.value)); }
      }
      assert request == UndoRequest(tenant, e);
      if request.None? { return !a.Refused?; }
      if a.Refused? { return false; }
      if Accepts(tenant, request.value, a.id) {
        var _ := Send(request.value, a.id);
        return a.Succeeds?;
      }
      return a.Succeeds? && !request.value.verb.Post?;
    }
  }

  /** The journal on disk; saving replaces the file. */
  class JournalFile {
    var entries: Journal

    constructor ()
      ensures entries == []
    {
      entries := [];
    }

    method Save(writes: Journal)
      modifies this
      ensures entries == writes
    {
      entries := writes;
    }
  }

  /** The writes for one listed URL, and the id of its client when it is registered. */
  method UrlEntries(remote: Remote, cfg: Config, url: string) returns (writes: Journal, registered: Option<Path>)
    requires WellFormed(remote.tenant)
    ensures writes == UrlWrites(remote.tenant, cfg, url) && registered == Registered(remote.tenant, url)
  {
    RegisteredIsTaken(remote.tenant, url);
    registered := remote.Lookup(ClientKey(Str(url)));
    if registered.None? {
      writes := [Posting(RegisterClient(url), Registrations, map[ExternalClientId := Str(url)]),
                 Posting(GrantFor(url), Grants, GrantData(cfg, url))];
    } else {
      var id := registered.value.id;
      var grant := remote.Lookup(UserGrant(cfg, id));
      if grant.None? {
        writes := [Posting(GrantFor(url), Grants, GrantData(cfg, id))];
      } else {
        writes := PatchIfChanged(GrantFor(url), grant.value, remote.tenant.docs[grant.value], DesiredGrant(cfg));
      }
    }
  }

  /** Registers and grants for the listed URLs, then revokes what fell off the list. */
  method ClientWrites(remote: Remote, cfg: Config, listing: seq<Path>) returns (writes: Journal, refused: Option<string>)
    requires WellFormed(remote.tenant)
    ensures refused.None? <==>
      forall u :: u in cfg.clients && u in remote.tenant.refused ==> Registered(remote.tenant, u).Some?
    ensures refused.None? ==>
      writes == AllUrlWrites(remote.tenant, cfg, |cfg.clients|) + Revokes(remote.tenant, cfg, listing)
  {
    hide WellFormed, UrlWrites, Managed, Registered, Revokes, Stale;
    var t := remote.tenant;
    writes, refused := [], None;
    var listedIds: set<string> := {};
    for n := 0 to |cfg.clients|
      invariant refused.None? && writes == AllUrlWrites(t, cfg, n)
      invariant forall id :: id in listedIds <==> exists m :: 0 <= m < n && Registered(t, cfg.clients[m]) == Some(Client(id))
      invariant forall m :: 0 <= m < n && cfg.clients[m] in t.refused ==> Registered(t, cfg.clients[m]).Some?
    {
      var entries, registered := UrlEntries(remote, cfg, cfg.clients[n]);
      if registered.Some? {
        listedIds := listedIds + {registered.value.id};
      } else if cfg.clients[n] in t.refused {
        return writes, Some(cfg.clients[n]);
      }
      writes := writes + entries;
    }
    var revokes := RevokePass(remote, cfg, listing, listedIds);
    writes := writes + revokes;
  }

  /** Revocations of the managed grants whose client is not among the listed ids. */
  method RevokePass(remote: Remote, cfg: Config, listing: seq<Path>, listedIds: set<string>) returns (writes: Journal)
    requires forall id :: id in listedIds <==> Listed(remote.tenant, cfg, id)
    ensures writes == Revokes(remote.tenant, cfg, listing)
    ensures forall e :: e in writes ==>
      && e.path in listing && CimdUserGrant(remote.tenant, cfg, e.path)
      && remote.tenant.docs[e.path][ClientId].s !in listedIds && RevokesGrant(remote.tenant, e, e.path)
    ensures forall p ::
      p in listing && CimdUserGrant(remote.tenant, cfg, p) && remote.tenant.docs[p][ClientId].s !in listedIds ==>
        exists e :: e in writes && e.path == p
  {
    var t := remote.tenant;
    RevokesAre(t, cfg, listing);
    writes := [];
    for n := 0 to |listing|
      invariant writes == Revokes(t, cfg, listing[..n])
    {
      var p := listing[n];
      assert listing[..n + 1][..n] == listing[..n];
      if Managed(t, cfg, p) && t.docs[p][ClientId].s !in listedIds {
        writes := writes + [Revoke(t, p)];
      }
    }
    assert listing[..|listing|] == listing;
  }

  method ConnectionEntries(remote: Remote, cfg: Config) returns (writes: Journal, missing: Option<string>)
    requires WellFormed(remote.tenant)
    ensures missing.None? <==> forall c :: c in cfg.connections ==> Taken(remote.tenant, ConnectionKey(Str(c)))
    ensures missing.None? ==> writes == ConnectionWrites(remote.tenant, cfg, |cfg.connections|)
  {
    writes, missing := [], None;
    for n := 0 to |cfg.connections|
      invariant missing.None?
      invariant forall i :: 0 <= i < n ==> Taken(remote.tenant, ConnectionKey(Str(cfg.connections[i])))
      invariant writes == ConnectionWrites(remote.tenant, cfg, n)
    {
      var name := cfg.connections[n];
      var connection := remote.Lookup(ConnectionKey(Str(name)));
      if connection.None? { return writes, Some(name); }
      var p := connection.value;
      writes := writes + PatchIfChanged(SignInConnection(name), p, remote.tenant.docs[p], DESIRED_CONNECTION);
    }
  }

  method MakePlan(remote: Remote, cfg: Config, listing: seq<Path>) returns (plan: Result<Journal, PlanError>)
    requires WellFormed(remote.tenant)
    ensures plan.Ok? <==> Plannable(remote.tenant, cfg)
    ensures plan.Ok? ==> plan.value == Plan(remote.tenant, cfg, listing)
    ensures plan.Ok? <==>
      && remote.tenant.rules == 0
      && (forall u :: u in cfg.clients && u in remote.tenant.refused ==> exists c :: CimdClientOf(remote.tenant, c, u))
      && (forall n :: n in cfg.connections ==>
            exists p: Path :: p.Connection? && p in remote.tenant.docs && Has(remote.tenant.docs[p], Name, Str(n)))
    ensures plan.Ok? && ListsGrants(remote.tenant, listing) ==> (plan.value == [] <==> InPlace(remote.tenant, cfg))
  {
    PlannableMeans(remote.tenant, cfg);
    if Plannable(remote.tenant, cfg) && ListsGrants(remote.tenant, listing) { NothingToDoExactly(remote.tenant, cfg, listing); }
    hide PatchIfChanged, AllUrlWrites, Revokes, ConnectionWrites, InPlace, CimdClientOf;
    var t := remote.tenant;
    if t.rules > 0 { return Err(ActiveRules); }
    var settings := PatchIfChanged(TenantSettings, Settings, SETTINGS_DEFAULTS + t.docs[Settings], DESIRED_SETTINGS);
    var existing := remote.Lookup(ApiKey(Str(cfg.resource)));
    var api := [Posting(McpApi, Apis, map[Name := Str("BoxLite MCP"), Identifier := Str(cfg.resource)] + DesiredApi(cfg))];
    if existing.Some? { api := PatchIfChanged(McpApi, existing.value, t.docs[existing.value], DesiredApi(cfg)); }
    var clients, refused := ClientWrites(remote, cfg, listing);
    if refused.Some? { return Err(DocumentRefused(refused.value)); }
    var connections, missing := ConnectionEntries(remote, cfg);
    if missing.Some? { return Err(ConnectionMissing(missing.value)); }
    return Ok(settings + api + clients + connections);
  }

  /** One turn of the loop of `apply`: mark, save, resolve, save, send, record, save. */
  method SendWrite(remote: Remote, file: JournalFile, journal: Journal, i: nat, cut: Cut)
    returns (writes: Journal, finished: bool)
    requires UniqueKeys(remote.tenant) && i < |journal| && file.entries == journal
    modifies remote, file
    ensures var sent := SendOne(old(remote.tenant), journal[i], cut);
      && remote.tenant == sent.tenant && finished == sent.finished
      && writes == journal[i := sent.entry] && file.entries == writes
  {
    hide UniqueKeys, Effect, Answer, Ready;
    writes := journal;
    if cut.Unmarked? {
      assert writes[i := writes[i]] == writes;
      return writes, false;
    }
    var e := writes[i].(attempted := true);
    writes := writes[i := e];
    file.Save(writes);
    var ready := remote.Prepare(e);
    if ready.None? || cut.Marked? { return writes, false; }
    e := ready.value;
    writes := writes[i := e];
    file.Save(writes);
    if cut.Prepared? || !Accepts(remote.tenant, e.Request(), cut.id) { return writes, false; }
    var answer := remote.Send(e.Request(), cut.id);
    if cut.Landed? { return writes, false; }
    if e.verb.Post? { e := e.(created := Some(answer)); }
    writes := writes[i := e];
    file.Save(writes);
    return writes, true;
  }

  /** The loop of `apply`: true when the run stopped before its end. */
  method SendWrites(remote: Remote, file: JournalFile, planned: Journal, cuts: seq<Cut>, ghost before: Tenant)
    returns (stopped: bool)
    requires Running(before, planned, remote.tenant, 0) && file.entries == planned
    modifies remote, file
    ensures Run(remote.tenant, file.entries, stopped) == ApplyFrom(old(remote.tenant), planned, 0, cuts)
  {
    hide Running, SendOne;
    ghost var t := remote.tenant;
    var writes := planned;
    var i := 0;
    while i < |writes|
      invariant i <= |writes| && Running(before, writes, remote.tenant, i) && file.entries == writes
      invariant ApplyFrom(remote.tenant, writes, i, cuts) == ApplyFrom(t, planned, 0, cuts)
      decreases |writes| - i
    {
      if i >= |cuts| { return true; }
      RunningUnique(before, writes, remote.tenant, i);
      SendKeeps(before, writes, remote.tenant, i, cuts[i]);
      var finished;
      writes, finished := SendWrite(remote, file, writes, i, cuts[i]);
      if !finished { return true; }
      i := i + 1;
    }
    return false;
  }

  /** `apply`: false when the run got to its end, true when it stopped. */
  method Apply(remote: Remote, file: JournalFile, cfg: Config, listing: seq<Path>, cuts: seq<Cut>)
    returns (stopped: Result<bool, PlanError>)
    requires WellFormed(remote.tenant) && ConfigOk(cfg) && ListsGrants(remote.tenant, listing)
    modifies remote, file
    ensures stopped.Ok? <==> Plannable(old(remote.tenant), cfg)
    ensures stopped.Err? ==> remote.tenant == old(remote.tenant) && file.entries == old(file.entries)
    ensures stopped.Ok? ==>
      Run(remote.tenant, file.entries, stopped.value)
      == ApplyFrom(old(remote.tenant), Plan(old(remote.tenant), cfg, listing), 0, cuts)
    ensures stopped.Ok? ==> Accounted(old(remote.tenant), file.entries, remote.tenant)
    ensures stopped == Ok(false) ==> InPlace(remote.tenant, cfg)
  {
    hide InPlace, Plan, Running, Accounted, ApplyFrom, Registered, Taken, ListsGrants;
    ghost var t := remote.tenant;
    var planned := MakePlan(remote, cfg, listing);
    if planned.Err? { return Err(planned.error); }
    RunComesTo(t, cfg, listing, cuts);
    file.Save(planned.value);
    var ended := SendWrites(remote, file, planned.value, cuts, t);
    return Ok(ended);
  }

  lemma RunComesTo(t: Tenant, cfg: Config, listing: seq<Path>, cuts: seq<Cut>)
    requires WellFormed(t) && ConfigOk(cfg) && Plannable(t, cfg) && ListsGrants(t, listing)
    ensures Running(t, Plan(t, cfg, listing), t, 0)
    ensures var run := ApplyFrom(t, Plan(t, cfg, listing), 0, cuts);
      Accounted(t, run.journal, run.tenant) && (!run.stopped ==> InPlace(run.tenant, cfg))
  {
    hide InPlace, Plan, Running, Accounted, ApplyFrom;
    PlanIsRunning(t, cfg, listing);
    RunIsAccounted(t, Plan(t, cfg, listing), t, 0, cuts);
    if !ApplyFrom(t, Plan(t, cfg, listing), 0, cuts).stopped { FinishedRunIsInPlace(t, cfg, listing, cuts); }
  }

  lemma RunningUnique(t: Tenant, J: Journal, s: Tenant, i: nat)
    requires Running(t, J, s, i)
    ensures UniqueKeys(s)
  {
  }

  /** `rollback`: undoes every entry, last first, and counts the failures it collects. */
  method Rollback(remote: Remote, file: JournalFile, attempts: seq<Attempt>, ghost before: Tenant) returns (failures: nat)
    requires Accounted(before, file.entries, remote.tenant)
    modifies remote
    ensures McpRun.Rollback.Rollback(remote.tenant, failures)
      == RollbackFrom(old(remote.tenant), file.entries, |file.entries|, attempts)
    ensures Accounted(before, file.entries, remote.tenant)
    ensures failures == 0 ==> AllPutBack(before, remote.tenant)
  {
    hide AllPutBack, Accounted, UndoOne, Restored, IsUndone;
    var journal := file.entries;
    ghost var t := remote.tenant;
    failures := 0;
    var n, k := |journal|, 0;
    while n > 0
      invariant 0 <= n <= |journal| && k <= |attempts|
      invariant Accounted(before, journal, remote.tenant)
      invariant var rest := RollbackFrom(remote.tenant, journal, n, attempts[k..]);
        RollbackFrom(t, journal, |journal|, attempts) == McpRun.Rollback.Rollback(rest.tenant, rest.failures + failures)
    {
      if k == |attempts| {
        failures := failures + n;
        break;
      }
      AccountedWellFormed(before, journal, remote.tenant);
      UndoKeepsAccount(before, journal, remote.tenant, n - 1, attempts[k]);
      var ok := remote.Undo(journal[n - 1], attempts[k]);
      if !ok { failures := failures + 1; }
      n, k := n - 1, k + 1;
    }
    if failures == 0 {
      CleanRollbackUndoes(before, journal, t, |journal|, attempts);
      AllUndoneRestores(before, journal, remote.tenant);
      RestoredMeans(before, remote.tenant);
    }
  }
}
