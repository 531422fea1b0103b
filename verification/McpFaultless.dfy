/** Without faults a run gets to its end, and a rollback can always undo everything. */
module McpFaultless {
  import opened Prelude
  import opened JsonTree
  import opened McpTenant
  import opened McpPlan
  import opened McpRun
  import opened McpRecovery
  import opened McpApply
  import opened McpPlanned
  import opened McpConvergence
  import opened McpFinished

  // ---------- ids ----------

  lemma {:induction false} LongerThanAll(used: set<string>) returns (n: nat)
    ensures forall id :: id in used ==> |id| < n
    decreases used
  {
    n := 0;
    if id :| id in used {
      var m := LongerThanAll(used - {id});
      n := if |id| < m then m else |id| + 1;
    }
  }

  lemma FreshId(t: Tenant) returns (id: string)
    ensures Fresh(t, id)
  {
    var n := LongerThanAll(t.used);
    id := seq(n, _ => 'a');
    assert "https://"[0] == 'h' && (n > 0 ==> id[0] == 'a');
  }

  // ---------- rolling back ----------

  /** Whatever the tenant and the journal, there is a way for a rollback to end without a failure. */
  lemma {:induction false} RollbackCanSucceed(t: Tenant, J: Journal, n: nat) returns (attempts: seq<Attempt>)
    requires n <= |J|
    ensures RollbackFrom(t, J, n, attempts).failures == 0
    decreases n
  {
    attempts := [];
    if n > 0 {
      var id := FreshId(t);
      var u := UndoOne(t, J[n - 1], Succeeds(id));
      assert u.ok by { WillingUndo(t, J[n - 1], id); }
      var rest := RollbackCanSucceed(u.tenant, J, n - 1);
      attempts := [Succeeds(id)] + rest;
      assert attempts[1..] == rest;
    }
  }

  lemma WillingUndo(t: Tenant, e: Entry, id: string)
    requires Fresh(t, id)
    ensures UndoOne(t, e, Succeeds(id)).ok
  {
    hide FindCreated;
  }

  /**
   Wherever a run stopped and however many rollbacks failed since, one more rollback can
   restore the tenant.
   */
  lemma AlwaysRestorable(t: Tenant, cfg: Config, listing: seq<Path>, cuts: seq<Cut>, tries: seq<seq<Attempt>>)
    returns (last: seq<Attempt>)
    requires WellFormed(t) && ConfigOk(cfg) && Plannable(t, cfg) && ListsGrants(t, listing)
    ensures var run := ApplyFrom(t, Plan(t, cfg, listing), 0, cuts);
      var end := RollbackFrom(Rollbacks(run.tenant, run.journal, tries), run.journal, |run.journal|, last);
      end.failures == 0 && Restored(t, end.tenant)
  {
    hide Restored, ApplyFrom, RollbackFrom, Rollbacks, Plan;
    var run := ApplyFrom(t, Plan(t, cfg, listing), 0, cuts);
    last := RollbackCanSucceed(Rollbacks(run.tenant, run.journal, tries), run.journal, |run.journal|);
    StoppedRunRollsBack(t, cfg, listing, cuts, tries, last);
  }

  // ---------- a grant comes after the registration it waits for ----------

  predicate WaitsFor(e: Entry, url: string) {
    e.verb.Post? && e.path.Grants? && ClientId in e.data && e.data[ClientId] == Str(url) && IsUrl(url)
  }

  predicate Registers(e: Entry, url: string) {
    e.verb.Post? && e.path.Registrations? && ExternalClientId in e.data && e.data[ExternalClientId] == Str(url)
  }

  ghost predicate RegisteredFirst(J: Journal) {
    forall i, url :: 0 <= i < |J| && WaitsFor(J[i], url) ==> exists j :: 0 <= j < i && Registers(J[j], url)
  }

  predicate NoGrantPosts(J: Journal) { forall i :: 0 <= i < |J| ==> !(J[i].verb.Post? && J[i].path.Grants?) }

  lemma RegisteredConcat(a: Journal, b: Journal)
    requires RegisteredFirst(a) && RegisteredFirst(b)
    ensures RegisteredFirst(a + b)
  {
    hide WaitsFor, Registers;
    var J := a + b;
    forall i, url | 0 <= i < |J| && WaitsFor(J[i], url) ensures exists j :: 0 <= j < i && Registers(J[j], url) {
      if i < |a| {
        var j :| 0 <= j < i && Registers(a[j], url);
        assert Registers(J[j], url);
      } else {
        assert WaitsFor(b[i - |a|], url);
        var j :| 0 <= j < i - |a| && Registers(b[j], url);
        assert Registers(J[|a| + j], url);
      }
    }
  }

  lemma UrlRegistersFirst(t: Tenant, cfg: Config, url: string)
    requires WellFormed(t)
    ensures RegisteredFirst(UrlWrites(t, cfg, url))
  {
    var J := UrlWrites(t, cfg, url);
    match Registered(t, url)
    case None => assert Registers(J[0], url);
    case Some(c) => assert DocOk(t, c);
  }

  lemma {:induction false} UrlsRegisterFirst(t: Tenant, cfg: Config, n: nat)
    requires WellFormed(t) && n <= |cfg.clients|
    ensures RegisteredFirst(AllUrlWrites(t, cfg, n))
  {
    hide WellFormed, UrlWrites;
    if n > 0 {
      UrlsRegisterFirst(t, cfg, n - 1);
      UrlRegistersFirst(t, cfg, cfg.clients[n - 1]);
      RegisteredConcat(AllUrlWrites(t, cfg, n - 1), UrlWrites(t, cfg, cfg.clients[n - 1]));
    }
  }

  lemma {:induction false} RevokesPostNothing(t: Tenant, cfg: Config, listing: seq<Path>)
    ensures NoGrantPosts(Revokes(t, cfg, listing))
  {
    hide Stale;
    if listing != [] { RevokesPostNothing(t, cfg, listing[..|listing| - 1]); }
  }

  lemma {:induction false} ConnectionsPostNothing(t: Tenant, cfg: Config, n: nat)
    requires n <= |cfg.connections|
    requires forall i :: 0 <= i < n ==> Taken(t, ConnectionKey(Str(cfg.connections[i])))
    ensures NoGrantPosts(ConnectionWrites(t, cfg, n))
  {
    if n > 0 { ConnectionsPostNothing(t, cfg, n - 1); }
  }

  lemma PatchPostsNothing(kind: Kind, p: Path, current: Fields, desired: Fields)
    ensures NoGrantPosts(PatchIfChanged(kind, p, current, desired))
  {
  }

  lemma ApiPostsNothing(t: Tenant, cfg: Config)
    ensures NoGrantPosts(ApiWrites(t, cfg))
  {
    hide PatchIfChanged, DesiredApi;
    match Find(t, ApiKey(Str(cfg.resource)))
    case None =>
    case Some(p) => PatchPostsNothing(McpApi, p, t.docs[p], DesiredApi(cfg));
  }

  lemma PlanRegistersFirst(t: Tenant, cfg: Config, listing: seq<Path>)
    requires WellFormed(t) && Plannable(t, cfg)
    ensures RegisteredFirst(Plan(t, cfg, listing))
  {
    hide PatchIfChanged, ApiWrites, AllUrlWrites, Revokes, ConnectionWrites, RegisteredFirst, NoGrantPosts;
    UrlsRegisterFirst(t, cfg, |cfg.clients|);
    RevokesPostNothing(t, cfg, listing);
    ConnectionsPostNothing(t, cfg, |cfg.connections|);
    PatchPostsNothing(TenantSettings, Settings, SETTINGS_DEFAULTS + t.docs[Settings], DESIRED_SETTINGS);
    ApiPostsNothing(t, cfg);
    hide WellFormed, Plannable;
    var a, b, c, d, e := SettingsWrites(t), ApiWrites(t, cfg), AllUrlWrites(t, cfg, |cfg.clients|),
      Revokes(t, cfg, listing), ConnectionWrites(t, cfg, |cfg.connections|);
    PostsNothing(a);
    PostsNothing(b);
    PostsNothing(d);
    PostsNothing(e);
    RegisteredConcat(a, b);
    RegisteredConcat(c, d);
    RegisteredConcat(a + b, c + d);
    RegisteredConcat(a + b + (c + d), e);
  }

  lemma PostsNothing(J: Journal)
    requires NoGrantPosts(J)
    ensures RegisteredFirst(J)
  {
  }

  // ---------- a run without faults ----------

  /** Every request of the rest of the run is answered, new ids being fresh. */
  ghost predicate FaultFree(s: Tenant, J: Journal, i: nat, cuts: seq<Cut>)
    requires i <= |J|
    decreases |J| - i
  {
    i < |J| ==>
      && i < |cuts| && cuts[i].Finished? && Fresh(s, cuts[i].id)
      && var sent := SendOne(s, J[i], cuts[i]);
      sent.finished ==> FaultFree(sent.tenant, J[i := sent.entry], i + 1, cuts)
  }

  /** By the time a grant is sent its client is registered. */
  lemma ClientIsThere(t: Tenant, cfg: Config, J: Journal, J': Journal, s: Tenant, i: nat)
    requires OnTheWay(t, cfg, J, J', s, i) && RegisteredFirst(J) && i < |J'|
    ensures Ready(s, J'[i].(attempted := true)).Some?
  {
    var e := J'[i];
    assert Ran(J[i], e) && Fits(t, cfg, J[i]) && Tied(t, s, e) && Tied(t, t, J[i]);
    assert forall c :: c in s.docs ==> DocOk(s, c);
    if e.verb.Post? && e.path.Grants? && IsUrl(e.data[ClientId].s) {
      var url := e.kind.url;
      if Holds(s, ClientKey(Str(url)), Client(e.data[ClientId].s)) {
        assert false;
      }
      assert WaitsFor(J[i], url);
      var j :| 0 <= j < i && Registers(J[j], url);
      RegistrationIsDone(t, J, J', s, j, url);
    }
  }

  lemma RegistrationIsDone(t: Tenant, J: Journal, J': Journal, s: Tenant, j: nat, url: string)
    requires Accounted(t, J', s) && AllRan(J, J') && j < |J| && Registers(J[j], url) && IsDone(J'[j], s)
    ensures Taken(s, ClientKey(Str(url)))
  {
    var e := J'[j];
    assert Ran(J[j], e);
    var q := e.created.value;
    assert KeyOf(q, s.docs[q]) == EntryKey(e) == ClientKey(Str(url));
    assert Holds(s, ClientKey(Str(url)), q);
  }

  /** What a run patches or deletes is still there when it gets to it. */
  lemma TargetIsThere(t: Tenant, cfg: Config, J: Journal, J': Journal, s: Tenant, i: nat)
    requires OnTheWay(t, cfg, J, J', s, i) && i < |J'| && !J'[i].verb.Post?
    ensures J'[i].path in s.docs
  {
    var e := J'[i];
    EntryIsOk(t, J', s, i);
    StillFits(t, cfg, J, J', i);
    forall j | 0 <= j < i ensures !(J'[j].verb.Delete? && J'[j].path == e.path) {
      StillFits(t, cfg, J, J', j);
      assert !Conflict(J'[j], e);
    }
    assert !Deleted(J', e.path);
  }

  lemma NextIsAccepted(t: Tenant, cfg: Config, J: Journal, J': Journal, s: Tenant, i: nat, id: string)
    requires OnTheWay(t, cfg, J, J', s, i) && RegisteredFirst(J) && i < |J'| && Fresh(s, id)
    ensures SendOne(s, J'[i], Finished(id)).finished
  {
    ClientIsThere(t, cfg, J, J', s, i);
    EntryIsOk(t, J', s, i);
    if !J'[i].verb.Post? { TargetIsThere(t, cfg, J, J', s, i); }
    hide OnTheWay, RegisteredFirst;
  }

  lemma {:induction false} FaultFreeFinishes(
    t: Tenant, cfg: Config, J: Journal, J': Journal, s: Tenant, i: nat, cuts: seq<Cut>)
    requires i <= |J'| && OnTheWay(t, cfg, J, J', s, i) && RegisteredFirst(J) && FaultFree(s, J', i, cuts)
    ensures !ApplyFrom(s, J', i, cuts).stopped
    decreases |J'| - i
  {
    hide OnTheWay, RegisteredFirst, SendOne, Fresh;
    if i < |J'| {
      var sent := SendOne(s, J'[i], cuts[i]);
      assert cuts[i] == Finished(cuts[i].id);
      NextIsAccepted(t, cfg, J, J', s, i, cuts[i].id);
      SendFinishes(t, cfg, J, J', s, i, cuts[i]);
      FaultFreeFinishes(t, cfg, J, J'[i := sent.entry], sent.tenant, i + 1, cuts);
    }
  }

  /**
   A run without faults gets to its end; planning again then writes nothing, and no CIMD
   client off the list keeps a user grant on this audience.
   */
  lemma FaultFreeRunConverges(t: Tenant, cfg: Config, listing: seq<Path>, cuts: seq<Cut>, again: seq<Path>)
    requires WellFormed(t) && ConfigOk(cfg) && Plannable(t, cfg) && ListsGrants(t, listing)
    requires FaultFree(t, Plan(t, cfg, listing), 0, cuts)
    ensures !ApplyFrom(t, Plan(t, cfg, listing), 0, cuts).stopped
    ensures var s := ApplyFrom(t, Plan(t, cfg, listing), 0, cuts).tenant;
      Settings in s.docs && Plannable(s, cfg) && Plan(s, cfg, again) == [] && forall p :: !Stale(s, cfg, p)
  {
    hide Plan, Running, ApplyFrom, FaultFree, Stale, RegisteredFirst, AllFit;
    var J := Plan(t, cfg, listing);
    PlanFits(t, cfg, listing);
    PlanIsRunning(t, cfg, listing);
    PlanRegistersFirst(t, cfg, listing);
    assert OnTheWay(t, cfg, J, J, t, 0);
    FaultFreeFinishes(t, cfg, J, J, t, 0, cuts);
    FinishedRunConverges(t, cfg, listing, cuts, again);
  }

  /** There are such runs: ids never run out. */
  lemma {:induction false} FaultFreeExists(s: Tenant, J: Journal, i: nat) returns (cuts: seq<Cut>)
    requires i <= |J|
    ensures |cuts| >= i && FaultFree(s, J, i, cuts)
    decreases |J| - i
  {
    if i == |J| {
      cuts := seq(i, _ => Unmarked);
    } else {
      var id := FreshId(s);
      var sent := SendOne(s, J[i], Finished(id));
      var rest := FaultFreeExists(sent.tenant, J[i := sent.entry], i + 1);
      cuts := rest[i := Finished(id)];
      PastIsIgnored(sent.tenant, J[i := sent.entry], i + 1, rest, cuts);
    }
  }

  lemma {:induction false} PastIsIgnored(s: Tenant, J: Journal, i: nat, cuts: seq<Cut>, others: seq<Cut>)
    requires i <= |J| && FaultFree(s, J, i, cuts) && |others| == |cuts|
    requires forall k :: i <= k < |cuts| ==> others[k] == cuts[k]
    ensures FaultFree(s, J, i, others)
    decreases |J| - i
  {
    hide SendOne, Fresh;
    if i < |J| {
      var sent := SendOne(s, J[i], cuts[i]);
      if sent.finished { PastIsIgnored(sent.tenant, J[i := sent.entry], i + 1, cuts, others); }
    }
  }

  /** A tenant with nothing but its settings qualifies for a run, whatever the list of clients. */
  lemma BareTenantQualifies(cfg: Config)
    requires ConfigOk(cfg) && cfg.connections == []
    ensures var t := Tenant(map[Settings := map[]], {}, 0, {});
      WellFormed(t) && Plannable(t, cfg) && ListsGrants(t, [])
  {
    hide Registered;
    var t := Tenant(map[Settings := map[]], {}, 0, {});
    assert forall p :: p in t.docs ==> p == Settings;
  }
}
