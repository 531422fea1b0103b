/** A run that finishes reaches the state it wanted: planning again finds nothing to write. */
module McpFinished {
  import opened Prelude
  import opened JsonTree
  import opened McpTenant
  import opened McpPlan
  import opened McpRun
  import opened McpRecovery
  import opened McpApply
  import opened McpPlanned
  import opened McpConvergence

  ghost predicate IsDone(e: Entry, s: Tenant) {
    match e.verb
    case Patch => e.path in s.docs && forall k :: k in e.data ==> k in s.docs[e.path] && s.docs[e.path][k] == e.data[k]
    case Post => e.created.Some? && e.created.value in s.docs && s.docs[e.created.value] == MadeFields(e.Request())
    case Delete => e.path !in s.docs
  }

  ghost predicate DoneUpTo(J: Journal, s: Tenant, i: nat) {
    forall j :: 0 <= j < i && j < |J| ==> IsDone(J[j], s)
  }

  /** Everything new was made by an entry that recorded it. */
  ghost predicate OnlyCreated(t: Tenant, J: Journal, s: Tenant) {
    forall q :: q in s.docs && q !in t.docs ==> exists i :: 0 <= i < |J| && J[i].verb.Post? && J[i].created == Some(q)
  }

  ghost predicate OnTheWay(t: Tenant, cfg: Config, J: Journal, J': Journal, s: Tenant, i: nat) {
    && WellFormed(t) && AllFit(t, cfg, J) && AllRan(J, J')
    && Running(t, J', s, i) && DoneUpTo(J', s, i) && OnlyCreated(t, J', s)
  }

  /** Entries of one run never undo each other's work. */
  lemma DoneLasts(t: Tenant, cfg: Config, f: Entry, e: Entry, s: Tenant, id: string)
    requires WellFormed(t) && WellFormed(s) && t.used <= s.used
    requires EntryOk(t, f) && EntryOk(t, e)
    requires OwnGrantsOnly(t, cfg, f) && OwnGrantsOnly(t, cfg, e)
    requires f.verb.Patch? ==> forall k :: k in f.data ==> k in Desired(cfg, f.path) && f.data[k] == Desired(cfg, f.path)[k]
    requires e.verb.Patch? ==> forall k :: k in e.data ==> k in Desired(cfg, e.path) && e.data[k] == Desired(cfg, e.path)[k]
    requires f.verb.Post? ==> f.created.Some? && f.created.value !in t.docs
    requires IsDone(f, s) && Accepts(s, e.Request(), id)
    ensures IsDone(f, Effect(s, e.Request(), id))
  {
    hide Desired, UniqueKeys, EntryKey;
    assert forall p :: p in s.docs ==> DocOk(s, p);
    assert forall p :: p in t.docs ==> DocOk(t, p);
  }

  /** What an entry of the plan says is still true of it later in the run. */
  lemma StillFits(t: Tenant, cfg: Config, J: Journal, J': Journal, i: nat)
    requires AllFit(t, cfg, J) && AllRan(J, J') && i < |J|
    ensures OwnGrantsOnly(t, cfg, J'[i])
    ensures J'[i].verb.Patch? ==>
      forall k :: k in J'[i].data ==> k in Desired(cfg, J'[i].path) && J'[i].data[k] == Desired(cfg, J'[i].path)[k]
  {
    assert Fits(t, cfg, J[i]) && Ran(J[i], J'[i]);
  }

  lemma CreatedIsNew(t: Tenant, e: Entry)
    requires WellFormed(t) && EntryOk(t, e) && e.verb.Post? && e.created.Some?
    ensures e.created.value !in t.docs
  {
    assert e.created.value in t.docs ==> DocOk(t, e.created.value);
  }

  /** One finished write, seen from the entries before it and from its own. */
  lemma SendDoes(s: Tenant, e: Entry, cut: Cut)
    requires SendOne(s, e, cut).finished
    ensures var sent := SendOne(s, e, cut);
      && cut.Finished? && Accepts(s, sent.entry.Request(), cut.id)
      && sent.tenant == Effect(s, sent.entry.Request(), cut.id)
      && sent.entry.verb == e.verb && sent.entry.path == e.path
      && (e.verb.Post? ==> sent.entry.created == Some(Answer(s, sent.entry.Request(), cut.id)))
  {
  }

  lemma PostDoes(t: Tenant, J: Journal, s: Tenant, i: nat, cut: Cut)
    requires Running(t, J, s, i) && i < |J| && J[i].verb.Post? && SendOne(s, J[i], cut).finished
    ensures var sent := SendOne(s, J[i], cut);
      && IsDone(sent.entry, sent.tenant)
      && (forall q :: q in sent.tenant.docs && q !in s.docs ==> sent.entry.created == Some(q))
  {
    hide Accounted, EntryOk;
    var e := Resolved(s, J[i]).value;
    ResolveKeeps(t, J, s, i);
    var J1 := J[i := e];
    MarkKeeps(t, J1, s, i);
    var J2 := J1[i := e.(attempted := true)];
    PostLands(t, J2, s, i, cut.id);
  }

  lemma SendFinishes(t: Tenant, cfg: Config, J: Journal, J': Journal, s: Tenant, i: nat, cut: Cut)
    requires OnTheWay(t, cfg, J, J', s, i) && i < |J'| && SendOne(s, J'[i], cut).finished
    ensures var sent := SendOne(s, J'[i], cut);
      OnTheWay(t, cfg, J, J'[i := sent.entry], sent.tenant, i + 1)
  {
    hide Accounted, EntryOk, AllTied, UntouchedFrom, Effect, OwnGrantsOnly, Fits, WellFormed, Desired, IsDone, SendOne;
    var sent := SendOne(s, J'[i], cut);
    var J2 := J'[i := sent.entry];
    SendKeeps(t, J', s, i, cut);
    SendRuns(s, J[i], J'[i], cut);
    SendDoes(s, J'[i], cut);
    AccountedWellFormed(t, J', s);
    forall j | 0 <= j < i + 1 && j < |J2| ensures IsDone(J2[j], sent.tenant) {
      if j < i {
        EntryIsOk(t, J2, sent.tenant, j);
        EntryIsOk(t, J2, sent.tenant, i);
        StillFits(t, cfg, J, J2, j);
        StillFits(t, cfg, J, J2, i);
        DoneCreated(J2[j], s);
        if J2[j].verb.Post? { CreatedIsNew(t, J2[j]); }
        DoneLasts(t, cfg, J2[j], sent.entry, s, cut.id);
      } else if J'[i].verb.Post? {
        PostDoes(t, J', s, i, cut);
      } else {
        ChangeDoes(s, J'[i], cut);
      }
    }
    NewIsCreated(t, J', s, i, cut);
  }

  lemma DoneCreated(e: Entry, s: Tenant)
    requires IsDone(e, s)
    ensures e.verb.Post? ==> e.created.Some?
  {
  }

  lemma ChangeDoes(s: Tenant, e: Entry, cut: Cut)
    requires !e.verb.Post? && SendOne(s, e, cut).finished
    ensures var sent := SendOne(s, e, cut);
      IsDone(sent.entry, sent.tenant) && forall q :: q in sent.tenant.docs ==> q in s.docs
  {
  }

  lemma NewIsCreated(t: Tenant, J: Journal, s: Tenant, i: nat, cut: Cut)
    requires Running(t, J, s, i) && OnlyCreated(t, J, s) && i < |J| && SendOne(s, J[i], cut).finished
    ensures var sent := SendOne(s, J[i], cut); OnlyCreated(t, J[i := sent.entry], sent.tenant)
  {
    hide Accounted, SendOne, IsDone;
    var sent := SendOne(s, J[i], cut);
    var J2 := J[i := sent.entry];
    SendDoes(s, J[i], cut);
    if J[i].verb.Post? { PostDoes(t, J, s, i, cut); } else { ChangeDoes(s, J[i], cut); }
    forall q | q in sent.tenant.docs && q !in t.docs
      ensures exists j :: 0 <= j < |J2| && J2[j].verb.Post? && J2[j].created == Some(q)
    {
      if q in s.docs {
        var j :| 0 <= j < |J| && J[j].verb.Post? && J[j].created == Some(q);
        assert j != i;
        assert J2[j].verb.Post? && J2[j].created == Some(q);
      } else {
        assert J2[i].verb.Post? && J2[i].created == Some(q);
      }
    }
  }

  lemma {:induction false} RunFinishes(t: Tenant, cfg: Config, J: Journal, J': Journal, s: Tenant, i: nat, cuts: seq<Cut>)
    requires i <= |J'| && OnTheWay(t, cfg, J, J', s, i) && !ApplyFrom(s, J', i, cuts).stopped
    ensures var run := ApplyFrom(s, J', i, cuts); OnTheWay(t, cfg, J, run.journal, run.tenant, |J|)
    decreases |J'| - i
  {
    hide Accounted, SendOne, DoneUpTo, OnlyCreated, AllFit, AllTied, UntouchedFrom, WellFormed, Ran;
    if i < |J'| {
      assert i < |cuts|;
      var sent := SendOne(s, J'[i], cuts[i]);
      SendFinishes(t, cfg, J, J', s, i, cuts[i]);
      RunFinishes(t, cfg, J, J'[i := sent.entry], sent.tenant, i + 1, cuts);
    }
  }

  lemma FinishedRun(t: Tenant, cfg: Config, listing: seq<Path>, cuts: seq<Cut>)
    requires WellFormed(t) && ConfigOk(cfg) && Plannable(t, cfg) && ListsGrants(t, listing)
    requires !ApplyFrom(t, Plan(t, cfg, listing), 0, cuts).stopped
    ensures var run := ApplyFrom(t, Plan(t, cfg, listing), 0, cuts);
      OnTheWay(t, cfg, Plan(t, cfg, listing), run.journal, run.tenant, |Plan(t, cfg, listing)|)
  {
    hide Plan, Running, ApplyFrom;
    var J := Plan(t, cfg, listing);
    PlanFits(t, cfg, listing);
    PlanIsRunning(t, cfg, listing);
    RunFinishes(t, cfg, J, J, t, 0, cuts);
  }

  // ---------- planning again ----------

  /** A resource the plan compared with its desired fields has them all at the end. */
  lemma FieldsReached(t: Tenant, cfg: Config, J: Journal, J': Journal, s: Tenant, kind: Kind, p: Path)
    requires OnTheWay(t, cfg, J, J', s, |J|) && p in t.docs && !Stale(t, cfg, p)
    requires var current := if p.Settings? then SETTINGS_DEFAULTS + t.docs[p] else t.docs[p];
      forall e :: e in PatchIfChanged(kind, p, current, Desired(cfg, p)) ==> e in J
    ensures p in s.docs
    ensures var current := if p.Settings? then SETTINGS_DEFAULTS + s.docs[p] else s.docs[p];
      Changed(current, Desired(cfg, p)) == {}
  {
    var current := if p.Settings? then SETTINGS_DEFAULTS + t.docs[p] else t.docs[p];
    var planned := PatchIfChanged(kind, p, current, Desired(cfg, p));
    NotRevoked(t, cfg, J, J', p);
    assert p in s.docs;
    forall k | k in Desired(cfg, p) ensures k in s.docs[p] && s.docs[p][k] == Desired(cfg, p)[k] {
      if k in Changed(current, Desired(cfg, p)) {
        assert planned[0] in J;
        var i :| 0 <= i < |J| && J[i] == planned[0];
        assert Ran(J[i], J'[i]) && IsDone(J'[i], s);
      } else if i :| 0 <= i < |J'| && J'[i].verb.Patch? && J'[i].path == p && k in J'[i].data {
        StillFits(t, cfg, J, J', i);
        assert IsDone(J'[i], s);
      } else {
        assert !Patched(J', p, k);
        assert p.Settings? ==> k in t.docs[p];
      }
    }
  }

  lemma NotRevoked(t: Tenant, cfg: Config, J: Journal, J': Journal, p: Path)
    requires AllFit(t, cfg, J) && AllRan(J, J') && !Stale(t, cfg, p)
    ensures !Deleted(J', p)
  {
    hide Stale;
    forall i | 0 <= i < |J'| && J'[i].verb.Delete? ensures J'[i].path != p {
      StillFits(t, cfg, J, J', i);
    }
  }

  /** What a planned `post` made is there, as it was sent. */
  lemma PostReached(t: Tenant, cfg: Config, J: Journal, J': Journal, s: Tenant, e: Entry) returns (i: nat, q: Path)
    requires OnTheWay(t, cfg, J, J', s, |J|) && e in J && e.verb.Post?
    ensures i < |J'| && Ran(e, J'[i]) && J'[i].created == Some(q)
    ensures q in s.docs && s.docs[q] == MadeFields(J'[i].Request()) && KeyOf(q, s.docs[q]) == EntryKey(J'[i]) != NoKey
  {
    i :| 0 <= i < |J| && J[i] == e;
    assert Ran(J[i], J'[i]) && IsDone(J'[i], s);
    EntryIsOk(t, J', s, i);
    q := J'[i].created.value;
  }

  lemma FindIs(s: Tenant, key: Key, p: Path)
    requires UniqueKeys(s) && Holds(s, key, p) && key != NoKey
    ensures Find(s, key) == Some(p)
  {
  }

  lemma ApiAsSent(cfg: Config, e0: Entry, e: Entry)
    requires e0 == Posting(McpApi, Apis, map[Name := Str("BoxLite MCP"), Identifier := Str(cfg.resource)] + DesiredApi(cfg))
    requires Ran(e0, e)
    ensures EntryKey(e) == ApiKey(Str(cfg.resource)) && MadeFields(e.Request()) == e0.data
    ensures Changed(e0.data, DesiredApi(cfg)) == {}
  {
  }

  lemma ApiReached(t: Tenant, cfg: Config, J: Journal, J': Journal, s: Tenant)
    requires OnTheWay(t, cfg, J, J', s, |J|)
    requires forall e :: e in ApiWrites(t, cfg) ==> e in J
    ensures ApiWrites(s, cfg) == []
  {
    hide OnTheWay, WellFormed, AllFit, AllRan, Ran, EntryOk;
    var key := ApiKey(Str(cfg.resource));
    OnTheWayFacts(t, cfg, J, J', s);
    match Find(t, key) {
      case None =>
        var i, q := PostReached(t, cfg, J, J', s, ApiWrites(t, cfg)[0]);
        ApiAsSent(cfg, ApiWrites(t, cfg)[0], J'[i]);
        FindIs(s, key, q);
      case Some(p) =>
        FieldsReached(t, cfg, J, J', s, McpApi, p);
        KeyUnchanged(t, J', s, p);
        FindIs(s, key, p);
    }
  }

  lemma OnTheWayFacts(t: Tenant, cfg: Config, J: Journal, J': Journal, s: Tenant)
    requires OnTheWay(t, cfg, J, J', s, |J|)
    ensures Accounted(t, J', s) && WellFormed(t) && WellFormed(s) && UniqueKeys(s) && UniqueKeys(t)
    ensures AllFit(t, cfg, J) && AllRan(J, J')
  {
  }

  lemma RegisteredIs(s: Tenant, url: string, c: Path)
    requires WellFormed(s) && Holds(s, ClientKey(Str(url)), c)
    ensures c.Client? && Registered(s, url) == Some(c)
  {
    assert DocOk(s, c);
  }

  /** Clients registered before stay registered. */
  lemma RegisteredLasts(t: Tenant, cfg: Config, J: Journal, J': Journal, s: Tenant, url: string)
    requires OnTheWay(t, cfg, J, J', s, |J|) && Registered(t, url).Some?
    ensures Registered(s, url) == Registered(t, url)
  {
    var c := Registered(t, url).value;
    NotRevoked(t, cfg, J, J', c);
    KeyUnchanged(t, J', s, c);
    RegisteredIs(s, url, c);
  }

  lemma RegistrationReached(t: Tenant, cfg: Config, J: Journal, J': Journal, s: Tenant, url: string)
    requires OnTheWay(t, cfg, J, J', s, |J|)
    requires forall e :: e in UrlWrites(t, cfg, url) ==> e in J
    ensures Registered(s, url).Some?
  {
    hide OnTheWay;
    if Registered(t, url).None? {
      OnTheWayFacts(t, cfg, J, J', s);
      var i, q := PostReached(t, cfg, J, J', s, UrlWrites(t, cfg, url)[0]);
      RegisteredIs(s, url, q);
    } else {
      RegisteredLasts(t, cfg, J, J', s, url);
    }
  }

  /** A grant posted in a finished run is for the client its metadata URL is registered as. */
  lemma PostedGrant(t: Tenant, cfg: Config, J: Journal, J': Journal, s: Tenant, i: nat, q: Path)
    requires OnTheWay(t, cfg, J, J', s, |J|) && i < |J'| && J'[i].verb.Post? && J'[i].path.Grants?
    requires J'[i].created == Some(q) && q in s.docs && s.docs[q] == J'[i].data
    requires q.Grant?
    ensures J'[i].kind.GrantFor? && J'[i].kind.url in cfg.clients && ClientId in J'[i].data && J'[i].data[ClientId].Str?
    ensures Registered(s, J'[i].kind.url) == Some(Client(J'[i].data[ClientId].s))
  {
    OnTheWayFacts(t, cfg, J, J', s);
    StillFits(t, cfg, J, J', i);
    assert Tied(t, s, J'[i]);
    assert DocOk(s, q);
    RegisteredIs(s, J'[i].kind.url, Client(J'[i].data[ClientId].s));
  }

  lemma GrantAsSent(cfg: Config, url: string, client: string, e: Entry)
    requires Ran(Posting(GrantFor(url), Grants, GrantData(cfg, client)), e)
    requires ClientId in e.data && e.data[ClientId].Str?
    ensures GrantKeyOf(e.data) == UserGrant(cfg, e.data[ClientId].s)
    ensures Changed(e.data, DesiredGrant(cfg)) == {}
  {
  }

  lemma PostedGrantReached(
    t: Tenant, cfg: Config, J: Journal, J': Journal, s: Tenant, url: string, client: string, c: Path)
    requires OnTheWay(t, cfg, J, J', s, |J|) && Registered(s, url) == Some(c)
    requires Posting(GrantFor(url), Grants, GrantData(cfg, client)) in J
    ensures var g := Find(s, UserGrant(cfg, c.id));
      g.Some? && Changed(s.docs[g.value], DesiredGrant(cfg)) == {}
  {
    hide OnTheWay, Accounted, WellFormed, AllFit, AllRan, Ran, GrantData, DesiredGrant, Changed, UniqueKeys;
    OnTheWayFacts(t, cfg, J, J', s);
    var e := Posting(GrantFor(url), Grants, GrantData(cfg, client));
    var i, q := PostReached(t, cfg, J, J', s, e);
    RanFacts(e, J'[i]);
    EntryIsOk(t, J', s, i);
    hide EntryOk;
    PostedGrant(t, cfg, J, J', s, i, q);
    GrantAsSent(cfg, url, client, J'[i]);
    FindIs(s, UserGrant(cfg, c.id), q);
  }

  lemma RanFacts(e0: Entry, e: Entry)
    requires Ran(e0, e)
    ensures e.verb == e0.verb && e.path == e0.path && e.kind == e0.kind
  {
  }

  lemma KeptGrantReached(t: Tenant, cfg: Config, J: Journal, J': Journal, s: Tenant, url: string, c: Path, g: Path)
    requires OnTheWay(t, cfg, J, J', s, |J|) && url in cfg.clients && Registered(t, url) == Some(c)
    requires Find(t, UserGrant(cfg, c.id)) == Some(g)
    requires forall e :: e in PatchIfChanged(GrantFor(url), g, t.docs[g], DesiredGrant(cfg)) ==> e in J
    ensures Find(s, UserGrant(cfg, c.id)) == Some(g) && Changed(s.docs[g], DesiredGrant(cfg)) == {}
  {
    hide OnTheWay;
    OnTheWayFacts(t, cfg, J, J', s);
    assert Listed(t, cfg, c.id);
    FieldsReached(t, cfg, J, J', s, GrantFor(url), g);
    KeyUnchanged(t, J', s, g);
    FindIs(s, UserGrant(cfg, c.id), g);
  }

  lemma UrlReached(t: Tenant, cfg: Config, J: Journal, J': Journal, s: Tenant, url: string)
    requires OnTheWay(t, cfg, J, J', s, |J|) && url in cfg.clients
    requires forall e :: e in UrlWrites(t, cfg, url) ==> e in J
    ensures UrlWrites(s, cfg, url) == []
  {
    hide OnTheWay, GrantData, DesiredGrant, KeyOf;
    RegistrationReached(t, cfg, J, J', s, url);
    var c := Registered(s, url).value;
    match Registered(t, url) {
      case None =>
        PostedGrantReached(t, cfg, J, J', s, url, url, c);
      case Some(c0) =>
        RegisteredLasts(t, cfg, J, J', s, url);
        match Find(t, UserGrant(cfg, c.id)) {
          case None => PostedGrantReached(t, cfg, J, J', s, url, c.id, c);
          case Some(g) => KeptGrantReached(t, cfg, J, J', s, url, c, g);
        }
    }
  }

  lemma {:induction false} UrlsReached(t: Tenant, cfg: Config, J: Journal, J': Journal, s: Tenant, n: nat)
    requires OnTheWay(t, cfg, J, J', s, |J|) && n <= |cfg.clients|
    requires forall e :: e in AllUrlWrites(t, cfg, n) ==> e in J
    ensures AllUrlWrites(s, cfg, n) == []
  {
    hide OnTheWay, UrlWrites;
    if n > 0 {
      UrlsReached(t, cfg, J, J', s, n - 1);
      UrlReached(t, cfg, J, J', s, cfg.clients[n - 1]);
    }
  }

  // ---------- no grant is left to revoke ----------

  lemma OldGrantNotStale(t: Tenant, cfg: Config, J: Journal, J': Journal, s: Tenant, p: Path)
    requires OnTheWay(t, cfg, J, J', s, |J|) && p in t.docs && p in s.docs
    requires Stale(t, cfg, p) ==> Revoke(t, p) in J
    ensures !Stale(s, cfg, p)
  {
    hide OnTheWay;
    OnTheWayFacts(t, cfg, J, J', s);
    if Managed(s, cfg, p) {
      ManagedBefore(t, cfg, J', s, p);
      if Stale(t, cfg, p) {
        RevokedIsGone(t, cfg, J, J', s, p);
      } else {
        var u :| u in cfg.clients && Registered(t, u) == Some(Client(t.docs[p][ClientId].s));
        RegisteredLasts(t, cfg, J, J', s, u);
      }
    }
  }

  lemma RevokedIsGone(t: Tenant, cfg: Config, J: Journal, J': Journal, s: Tenant, p: Path)
    requires OnTheWay(t, cfg, J, J', s, |J|) && p in t.docs && ClientId in t.docs[p] && Revoke(t, p) in J
    ensures p !in s.docs
  {
    var i :| 0 <= i < |J| && J[i] == Revoke(t, p);
    assert Ran(J[i], J'[i]) && IsDone(J'[i], s);
  }

  lemma NewGrantNotStale(t: Tenant, cfg: Config, J: Journal, J': Journal, s: Tenant, q: Path)
    requires OnTheWay(t, cfg, J, J', s, |J|) && q !in t.docs && q in s.docs && q.Grant?
    ensures !Stale(s, cfg, q)
  {
    var i :| 0 <= i < |J'| && J'[i].verb.Post? && J'[i].created == Some(q);
    assert IsDone(J'[i], s);
    EntryIsOk(t, J', s, i);
    assert KeyOf(q, s.docs[q]) == EntryKey(J'[i]);
    PostedGrant(t, cfg, J, J', s, i, q);
  }

  lemma NotStale(t: Tenant, cfg: Config, J: Journal, J': Journal, s: Tenant, p: Path)
    requires OnTheWay(t, cfg, J, J', s, |J|)
    requires forall p :: p in t.docs && Stale(t, cfg, p) ==> Revoke(t, p) in J
    ensures !Stale(s, cfg, p)
  {
    hide OnTheWay, Stale, Managed;
    StaleIsGrant(s, cfg, p);
    if p in s.docs && p in t.docs {
      OldGrantNotStale(t, cfg, J, J', s, p);
    } else if p in s.docs && p.Grant? {
      NewGrantNotStale(t, cfg, J, J', s, p);
    }
  }

  lemma {:induction false} RevokesReached(s: Tenant, cfg: Config, listing: seq<Path>)
    requires forall p :: !Stale(s, cfg, p)
    ensures Revokes(s, cfg, listing) == []
  {
    if listing != [] { RevokesReached(s, cfg, listing[..|listing| - 1]); }
  }

  lemma StaleIsGrant(s: Tenant, cfg: Config, p: Path)
    ensures Stale(s, cfg, p) ==> p.Grant? && p in s.docs && ClientId in s.docs[p]
  {
  }

  lemma {:induction false} StaleIsRevoked(t: Tenant, cfg: Config, listing: seq<Path>, p: Path)
    requires p in listing && Stale(t, cfg, p)
    ensures Revoke(t, p) in Revokes(t, cfg, listing)
  {
    if p != listing[|listing| - 1] {
      StaleIsRevoked(t, cfg, listing[..|listing| - 1], p);
    }
  }

  lemma ConnectionReached(t: Tenant, cfg: Config, J: Journal, J': Journal, s: Tenant, name: string, p: Path)
    requires OnTheWay(t, cfg, J, J', s, |J|) && Find(t, ConnectionKey(Str(name))) == Some(p)
    requires forall e :: e in PatchIfChanged(SignInConnection(name), p, t.docs[p], DESIRED_CONNECTION) ==> e in J
    ensures Find(s, ConnectionKey(Str(name))) == Some(p) && Changed(s.docs[p], DESIRED_CONNECTION) == {}
  {
    hide OnTheWay;
    OnTheWayFacts(t, cfg, J, J', s);
    FieldsReached(t, cfg, J, J', s, SignInConnection(name), p);
    KeyUnchanged(t, J', s, p);
    FindIs(s, ConnectionKey(Str(name)), p);
  }

  lemma {:induction false} ConnectionsReached(t: Tenant, cfg: Config, J: Journal, J': Journal, s: Tenant, n: nat)
    requires OnTheWay(t, cfg, J, J', s, |J|) && n <= |cfg.connections|
    requires forall i :: 0 <= i < n ==> Taken(t, ConnectionKey(Str(cfg.connections[i])))
    requires forall e :: e in ConnectionWrites(t, cfg, n) ==> e in J
    ensures forall i :: 0 <= i < n ==> Taken(s, ConnectionKey(Str(cfg.connections[i])))
    ensures ConnectionWrites(s, cfg, n) == []
  {
    hide OnTheWay, KeyOf;
    if n > 0 {
      ConnectionsReached(t, cfg, J, J', s, n - 1);
      var name := cfg.connections[n - 1];
      ConnectionReached(t, cfg, J, J', s, name, Find(t, ConnectionKey(Str(name))).value);
    }
  }

  // ---------- the theorem ----------

  lemma {:induction false} RunKeepsRules(s: Tenant, J: Journal, i: nat, cuts: seq<Cut>)
    requires i <= |J|
    ensures var run := ApplyFrom(s, J, i, cuts); run.tenant.rules == s.rules && run.tenant.refused == s.refused
    decreases |J| - i
  {
    if i < |J| && i < |cuts| {
      var sent := SendOne(s, J[i], cuts[i]);
      assert sent.tenant.rules == s.rules && sent.tenant.refused == s.refused;
      if sent.finished { RunKeepsRules(sent.tenant, J[i := sent.entry], i + 1, cuts); }
    }
  }

  /**
   After a run that finished, planning again writes nothing, and no CIMD client off the list keeps
   a user grant on this audience.
   */
  lemma FinishedRunConverges(t: Tenant, cfg: Config, listing: seq<Path>, cuts: seq<Cut>, again: seq<Path>)
    requires WellFormed(t) && ConfigOk(cfg) && Plannable(t, cfg) && ListsGrants(t, listing)
    requires !ApplyFrom(t, Plan(t, cfg, listing), 0, cuts).stopped
    ensures var s := ApplyFrom(t, Plan(t, cfg, listing), 0, cuts).tenant;
      && Settings in s.docs && Plannable(s, cfg) && Plan(s, cfg, again) == []
      && forall p :: !Stale(s, cfg, p)
  {
    var J := Plan(t, cfg, listing);
    var run := ApplyFrom(t, J, 0, cuts);
    var s, J' := run.tenant, run.journal;
    FinishedRun(t, cfg, listing, cuts);
    RunKeepsRules(t, J, 0, cuts);
    PlanHolds(t, cfg, listing);
    hide Plan, ApplyFrom, OnTheWay, HasParts, Plannable, Stale, ConfigOk, ListsGrants;
    PlanEmpty(t, cfg, J, J', s, again);
  }

  /** The parts of a plan, as members of it. */
  ghost predicate HasParts(t: Tenant, cfg: Config, J: Journal)
    requires Settings in t.docs && Plannable(t, cfg)
  {
    && (forall e :: e in SettingsWrites(t) ==> e in J)
    && (forall e :: e in ApiWrites(t, cfg) ==> e in J)
    && (forall e :: e in AllUrlWrites(t, cfg, |cfg.clients|) ==> e in J)
    && (forall p :: p in t.docs && Stale(t, cfg, p) ==> Revoke(t, p) in J)
    && (forall e :: e in ConnectionWrites(t, cfg, |cfg.connections|) ==> e in J)
  }

  lemma PlanHolds(t: Tenant, cfg: Config, listing: seq<Path>)
    requires WellFormed(t) && Plannable(t, cfg) && ListsGrants(t, listing)
    ensures HasParts(t, cfg, Plan(t, cfg, listing))
  {
    hide ConnectionWrites, AllUrlWrites, ApiWrites, SettingsWrites, Revokes;
    forall p | p in t.docs && Stale(t, cfg, p) ensures Revoke(t, p) in Plan(t, cfg, listing) {
      StaleIsGrant(t, cfg, p);
      StaleIsRevoked(t, cfg, listing, p);
    }
  }

  lemma PlanEmpty(t: Tenant, cfg: Config, J: Journal, J': Journal, s: Tenant, again: seq<Path>)
    requires OnTheWay(t, cfg, J, J', s, |J|) && Settings in t.docs && Plannable(t, cfg) && HasParts(t, cfg, J)
    requires s.rules == t.rules && s.refused == t.refused
    ensures Settings in s.docs && Plannable(s, cfg) && Plan(s, cfg, again) == [] && forall p :: !Stale(s, cfg, p)
  {
    hide OnTheWay, Revokes, ConnectionWrites, ApiWrites;
    FieldsReached(t, cfg, J, J', s, TenantSettings, Settings);
    ApiReached(t, cfg, J, J', s);
    UrlsReached(t, cfg, J, J', s, |cfg.clients|);
    forall p ensures !Stale(s, cfg, p) { NotStale(t, cfg, J, J', s, p); }
    RevokesReached(s, cfg, again);
    ConnectionsReached(t, cfg, J, J', s, |cfg.connections|);
    forall u | u in cfg.clients && u in s.refused ensures Registered(s, u).Some? {
      RegisteredLasts(t, cfg, J, J', s, u);
    }
  }
}
