/** Every state a run can stop in is accounted for by the journal it leaves on disk. */
module McpApply {
  import opened Prelude
  import opened JsonTree
  import opened McpTenant
  import opened McpPlan
  import opened McpRun
  import opened McpRecovery

  /** What ties a `post` to its kind, so that distinct kinds never make the same resource. */
  ghost predicate Tied(s0: Tenant, s: Tenant, e: Entry) {
    e.verb.Post? ==>
      match e.path
      case Apis => e.kind.McpApi?
      case Registrations =>
        e.kind.RegisterClient? && ExternalClientId in e.data && e.data[ExternalClientId] == Str(e.kind.url)
      case Grants =>
        && e.kind.GrantFor? && IsUrl(e.kind.url)
        && ClientId in e.data && Audience in e.data && SubjectType in e.data
        && e.data[ClientId].Str?
        && ((e.data[ClientId].s == e.kind.url && !Taken(s0, ClientKey(Str(e.kind.url))))
            || Holds(s, ClientKey(Str(e.kind.url)), Client(e.data[ClientId].s)))
      case _ => false
  }

  ghost predicate AllTied(s0: Tenant, s: Tenant, J: Journal) {
    && (forall i :: 0 <= i < |J| ==> Tied(s0, s, J[i]))
    && (forall i, j :: 0 <= i < j < |J| && J[i].verb.Post? && J[j].verb.Post? ==> J[i].kind != J[j].kind)
  }

  ghost predicate UntouchedFrom(J: Journal, i: nat) {
    forall j :: i <= j < |J| ==> !J[j].attempted && J[j].created.None?
  }

  ghost predicate Running(s0: Tenant, J: Journal, s: Tenant, i: nat) {
    Accounted(s0, J, s) && AllTied(s0, s, J) && UntouchedFrom(J, i)
  }

  lemma KindsTellKeysApart(s0: Tenant, s: Tenant, a: Entry, b: Entry)
    requires WellFormed(s) && Tied(s0, s, a) && Tied(s0, s, b) && a.verb.Post? && b.verb.Post? && a.kind != b.kind
    ensures EntryKey(a) != EntryKey(b)
  {
    assert forall c :: c in s.docs ==> DocOk(s, c);
  }

  /** The same write, further on: only its data, its mark and what it created may differ. */
  ghost predicate Follows(e0: Entry, e: Entry) {
    && e.verb == e0.verb && e.path == e0.path && e.previous == e0.previous && e.kind == e0.kind
    && (e.verb.Patch? ==> e.data == e0.data)
    && (e0.attempted ==> e.attempted)
  }

  ghost predicate CreationRecorded(s: Tenant, e: Entry) {
    e.created.Some? ==>
      && (HasId(e.created.value) ==> e.created.value.id in s.used)
      && (e.verb.Post? ==> forall q :: q in s.docs ==>
           (KeyOf(q, s.docs[q]) == EntryKey(e) <==> q == e.created.value))
  }

  lemma SameWrites(J: Journal, i: nat, e: Entry)
    requires i < |J| && Follows(J[i], e)
    ensures forall p :: Deleted(J, p) ==> Deleted(J[i := e], p)
    ensures forall p, k :: Patched(J, p, k) <==> Patched(J[i := e], p, k)
  {
    var J' := J[i := e];
    forall p | Deleted(J, p) ensures Deleted(J', p) {
      var j :| 0 <= j < |J| && J[j].verb.Delete? && J[j].attempted && J[j].path == p;
      assert J'[j].verb.Delete? && J'[j].attempted && J'[j].path == p;
    }
    forall p, k ensures Patched(J, p, k) <==> Patched(J', p, k) {
      if Patched(J, p, k) {
        var j :| 0 <= j < |J| && J[j].verb.Patch? && J[j].path == p && k in J[j].data;
        assert J'[j].verb.Patch? && J'[j].path == p && k in J'[j].data;
      }
      if Patched(J', p, k) {
        var j :| 0 <= j < |J| && J'[j].verb.Patch? && J'[j].path == p && k in J'[j].data;
        assert J[j].verb.Patch? && J[j].path == p && k in J[j].data;
      }
    }
  }

  ghost predicate ExplainsAsMuch(s: Tenant, e0: Entry, e: Entry) {
    forall q :: q in s.docs && Explains(s, e0, q) ==> Explains(s, e, q)
  }

  lemma StillAdded(s0: Tenant, J: Journal, s: Tenant, i: nat, e: Entry)
    requires Added(s0, J, s) && i < |J| && ExplainsAsMuch(s, J[i], e)
    ensures Added(s0, J[i := e], s)
  {
    hide Explains, KeyOf, EntryKey;
    var J' := J[i := e];
    forall q | q in s.docs && q !in s0.docs
      ensures exists j :: 0 <= j < |J'| && Explains(s, J'[j], q)
    {
      var j :| 0 <= j < |J| && Explains(s, J[j], q);
      assert Explains(s, J'[j], q);
    }
  }

  /** Moving one entry of the journal on, the tenant being left alone. */
  lemma Rewrite(s0: Tenant, J: Journal, s: Tenant, i: nat, e: Entry)
    requires Accounted(s0, J, s) && i < |J|
    requires Follows(J[i], e) && EntryOk(s0, e) && CreationRecorded(s, e)
    requires forall j :: 0 <= j < |J| && j != i ==> !Conflict(J[j], e) && !Conflict(e, J[j])
    requires ExplainsAsMuch(s, J[i], e)
    ensures Accounted(s0, J[i := e], s)
  {
    SameWrites(J, i, e);
    StillAdded(s0, J, s, i, e);
    StillOk(s0, J, i, e);
    StillRecorded(J, s, i, e);
    hide WellFormed, JournalOk, Added, CreatedAlone, CreatedUsed;
  }

  lemma StillOk(s0: Tenant, J: Journal, i: nat, e: Entry)
    requires JournalOk(s0, J) && i < |J| && EntryOk(s0, e)
    requires forall j :: 0 <= j < |J| && j != i ==> !Conflict(J[j], e) && !Conflict(e, J[j])
    ensures JournalOk(s0, J[i := e])
  {
    hide EntryOk, Conflict;
  }

  lemma StillRecorded(J: Journal, s: Tenant, i: nat, e: Entry)
    requires CreatedAlone(J, s) && CreatedUsed(J, s) && i < |J| && CreationRecorded(s, e)
    ensures CreatedAlone(J[i := e], s) && CreatedUsed(J[i := e], s)
  {
    hide KeyOf, EntryKey;
  }

  /** The entry as it will be sent, still unmarked. */
  ghost function Resolved(s: Tenant, e: Entry): Option<Entry> {
    match Ready(s, e.(attempted := true))
    case Some(r) => Some(r.(attempted := false))
    case None => None
  }

  lemma ResolveKeeps(s0: Tenant, J: Journal, s: Tenant, i: nat)
    requires Running(s0, J, s, i) && i < |J| && Resolved(s, J[i]).Some?
    ensures var e := Resolved(s, J[i]).value;
      && EntryOk(s0, e) && Tied(s0, s, e) && e.kind == J[i].kind && e.verb == J[i].verb && e.path == J[i].path
      && (e.verb.Post? && e.path.Grants? ==> NamesClient(s, e.data))
      && Running(s0, J[i := e], s, i)
  {
    hide WellFormed, EntryOk, Kept, FieldsKept, Added, CreatedAlone, CreatedUsed, Conflict, EntryKey;
    var e0, e := J[i], Resolved(s, J[i]).value;
    assert EntryOk(s0, e0) && Tied(s0, s, e0);
    if e0.verb.Post? && e0.path.Grants? {
      ResolvedGrant(s0, J, s, i);
      OthersApart(s0, J, s, i, e);
      Rewrite(s0, J, s, i, e);
    } else {
      assert e == e0;
      assert J[i := e] == J;
    }
  }

  lemma ResolvedGrant(s0: Tenant, J: Journal, s: Tenant, i: nat)
    requires Running(s0, J, s, i) && i < |J| && J[i].verb.Post? && J[i].path.Grants? && Resolved(s, J[i]).Some?
    ensures var e := Resolved(s, J[i]).value;
      EntryOk(s0, e) && Tied(s0, s, e) && NamesClient(s, e.data)
  {
    var e0, e := J[i], Resolved(s, J[i]).value;
    assert EntryOk(s0, e0) && Tied(s0, s, e0);
    var url := ClientKey(Str(e0.kind.url));
    var c := Client(e.data[ClientId].s);
    assert forall p :: p in s.docs ==> DocOk(s, p);
    assert Holds(s, url, c);
    if e != e0 {
      if c in s0.docs {
        KeyUnchanged(s0, J, s, c);
        assert Holds(s0, url, c);
      }
      assert c.id !in s0.used;
      forall g ensures !Holds(s0, EntryKey(e), g) {
        assert g in s0.docs ==> DocOk(s0, g);
      }
    }
  }

  lemma OthersApart(s0: Tenant, J: Journal, s: Tenant, i: nat, e: Entry)
    requires Running(s0, J, s, i) && i < |J| && Tied(s0, s, e) && e.verb.Post? && J[i].verb.Post? && e.kind == J[i].kind
    ensures forall j :: 0 <= j < |J| && j != i ==> !Conflict(J[j], e) && !Conflict(e, J[j])
  {
    forall j | 0 <= j < |J| && j != i ensures !Conflict(J[j], e) && !Conflict(e, J[j]) {
      if J[j].verb.Post? { KindsTellKeysApart(s0, s, J[j], e); }
    }
  }

  // ---------- the request lands ----------

  lemma NotThereYet(s0: Tenant, J: Journal, s: Tenant, i: nat)
    requires Accounted(s0, J, s) && i < |J| && J[i].verb.Post? && !J[i].attempted
    ensures !Taken(s, EntryKey(J[i]))
  {
    if q :| Holds(s, EntryKey(J[i]), q) { PostedKeyIsNew(s0, J, s, i, q); }
  }

  lemma PostLands(s0: Tenant, J: Journal, s: Tenant, i: nat, id: string)
    requires Accounted(s0, J, s) && i < |J| && J[i].verb.Post? && J[i].attempted && J[i].created.None?
    requires !Taken(s, EntryKey(J[i])) && Accepts(s, J[i].Request(), id)
    requires J[i].path.Grants? ==> NamesClient(s, J[i].data)
    ensures var s' := Effect(s, J[i].Request(), id);
      && Accounted(s0, J, s')
      && Made(J[i].path, id) in s'.docs && s'.docs[Made(J[i].path, id)] == MadeFields(J[i].Request())
      && s' == s.(docs := s.docs[Made(J[i].path, id) := MadeFields(J[i].Request())], used := s.used + {id})
      && Made(J[i].path, id) !in s.docs
      && Answer(s, J[i].Request(), id) == Made(J[i].path, id)
      && (forall q :: q in s'.docs ==>
           (KeyOf(q, s'.docs[q]) == EntryKey(J[i]) <==> q == Made(J[i].path, id)))
  {
    var e, q := J[i], Made(J[i].path, id);
    var f := MadeFields(e.Request());
    assert EntryOk(s0, e);
    assert KeyOf(q, f) == EntryKey(e);
    var s' := s.(docs := s.docs[q := f], used := s.used + {id});
    assert DocOk(s', q);
    AddKeepsWellFormed(s, q, f, s');
    forall j | 0 <= j < |J| && J[j].verb.Post? && J[j].created.Some? ensures EntryKey(J[j]) != EntryKey(e) {
      assert j != i;
      assert !Conflict(J[j], J[i]) && !Conflict(J[i], J[j]);
    }
    AddKeepsAccount(s0, J, s, i, q, f, s');
    forall p | p in s.docs ensures KeyOf(p, s.docs[p]) != EntryKey(e) {
      assert !Holds(s, EntryKey(e), p);
    }
  }

  lemma DeleteLands(s0: Tenant, J: Journal, s: Tenant, i: nat, s': Tenant)
    requires Accounted(s0, J, s) && i < |J| && J[i].verb.Delete? && J[i].attempted
    requires s' == s.(docs := s.docs - {J[i].path})
    ensures Accounted(s0, J, s')
  {
    assert Deleted(J, J[i].path);
    forall p | p in s'.docs && p !in s0.docs
      ensures exists j :: 0 <= j < |J| && Explains(s', J[j], p)
    {
      var j :| 0 <= j < |J| && Explains(s, J[j], p);
      assert Explains(s', J[j], p);
    }
  }

  lemma Lands(s0: Tenant, J: Journal, s: Tenant, i: nat, id: string)
    requires Accounted(s0, J, s) && i < |J| && J[i].attempted && J[i].created.None?
    requires J[i].verb.Post? ==> !Taken(s, EntryKey(J[i]))
    requires J[i].verb.Post? && J[i].path.Grants? ==> NamesClient(s, J[i].data)
    requires Accepts(s, J[i].Request(), id)
    ensures Accounted(s0, J, Effect(s, J[i].Request(), id))
    ensures CreationRecorded(Effect(s, J[i].Request(), id), Answered(s, J[i], id))
    ensures EntryOk(s0, Answered(s, J[i], id))
    ensures forall u, c :: Holds(s, ClientKey(u), c) ==> Holds(Effect(s, J[i].Request(), id), ClientKey(u), c)
  {
    var e := J[i];
    var s' := Effect(s, e.Request(), id);
    assert EntryOk(s0, e);
    AccountedWellFormed(s0, J, s);
    match e.verb {
      case Post => PostLands(s0, J, s, i, id); hide Accounted;
      case Delete => DeleteLands(s0, J, s, i, s'); hide Accounted;
      case Patch => PatchKeepsAccount(s0, J, s, i, e.data, s'); PatchKeepsKeys(s, e.path, e.data, s'); hide Accounted;
    }
  }

  // ---------- one write, and a whole run ----------

  lemma TiesLast(s0: Tenant, J: Journal, s: Tenant, i: nat, e: Entry, s': Tenant)
    requires AllTied(s0, s, J) && i < |J| && Follows(J[i], e) && Tied(s0, s, e)
    requires forall u, c :: Holds(s, ClientKey(u), c) ==> Holds(s', ClientKey(u), c)
    ensures AllTied(s0, s', J[i := e])
  {
    var J' := J[i := e];
    forall j | 0 <= j < |J| ensures Tied(s0, s', J'[j]) {
      assert Tied(s0, s, J[j]);
    }
  }

  /** Entry `i` of a running journal, moved on by itself. */
  lemma MoveOn(s0: Tenant, J: Journal, s: Tenant, i: nat, e: Entry)
    requires Accounted(s0, J, s) && AllTied(s0, s, J) && i < |J| && Follows(J[i], e)
    requires e.data == J[i].data && EntryOk(s0, e) && CreationRecorded(s, e)
    ensures Accounted(s0, J[i := e], s)
  {
    assert EntryKey(e) == EntryKey(J[i]);
    forall j | 0 <= j < |J| && j != i ensures !Conflict(J[j], e) && !Conflict(e, J[j]) {
      assert !Conflict(J[j], J[i]) && !Conflict(J[i], J[j]);
    }
    Rewrite(s0, J, s, i, e);
  }

  lemma MarkKeeps(s0: Tenant, J: Journal, s: Tenant, i: nat)
    requires Running(s0, J, s, i) && i < |J|
    ensures var e := J[i].(attempted := true);
      Accounted(s0, J[i := e], s) && EntryOk(s0, e) && (e.verb.Post? ==> !Taken(s, EntryKey(e)))
  {
    EntryIsOk(s0, J, s, i);
    if J[i].verb.Post? { NotThereYet(s0, J, s, i); }
    MoveOn(s0, J, s, i, J[i].(attempted := true));
  }

  lemma SendKeeps(s0: Tenant, J: Journal, s: Tenant, i: nat, cut: Cut)
    requires Running(s0, J, s, i) && i < |J|
    ensures var sent := SendOne(s, J[i], cut);
      && Accounted(s0, J[i := sent.entry], sent.tenant)
      && (sent.finished ==> Running(s0, J[i := sent.entry], sent.tenant, i + 1))
  {
    hide Accounted, EntryOk, Effect, Answer, KeyOf, EntryKey;
    var sent := SendOne(s, J[i], cut);
    if cut.Unmarked? {
      assert J[i := J[i]] == J;
    } else if Ready(s, J[i].(attempted := true)).None? || cut.Marked? {
      MarkKeeps(s0, J, s, i);
    } else {
      ResolveKeeps(s0, J, s, i);
      var e := Resolved(s, J[i]).value;
      var J1 := J[i := e];
      MarkKeeps(s0, J1, s, i);
      var ready := e.(attempted := true);
      var J2 := J1[i := ready];
      assert J2 == J[i := ready];
      if !cut.Prepared? && Accepts(s, ready.Request(), cut.id) {
        Lands(s0, J2, s, i, cut.id);
        var s' := Effect(s, ready.Request(), cut.id);
        var done := Answered(s, ready, cut.id);
        if cut.Finished? {
          TiesLast(s0, J1, s, i, ready, s');
          MoveOn(s0, J2, s', i, done);
          TiesLast(s0, J1, s, i, done, s');
          assert J1[i := done] == J[i := done] == J2[i := done];
        }
      }
    }
  }

  lemma {:induction false} RunIsAccounted(s0: Tenant, J: Journal, s: Tenant, i: nat, cuts: seq<Cut>)
    requires i <= |J| && Running(s0, J, s, i)
    ensures var run := ApplyFrom(s, J, i, cuts); Accounted(s0, run.journal, run.tenant)
    decreases |J| - i
  {
    hide Accounted, AllTied, UntouchedFrom, SendOne;
    if i < |J| && i < |cuts| {
      var sent := SendOne(s, J[i], cuts[i]);
      SendKeeps(s0, J, s, i, cuts[i]);
      if sent.finished { RunIsAccounted(s0, J[i := sent.entry], sent.tenant, i + 1, cuts); }
    }
  }
}
