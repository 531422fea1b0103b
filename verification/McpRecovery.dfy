/** Wherever a run stops, rolling it back restores the tenant. */
module McpRecovery {
  import opened Prelude
  import opened JsonTree
  import opened McpTenant
  import opened McpPlan
  import opened McpRun

  // ---------- what rollback promises ----------

  /** The value a field is put back to: an absent field comes back null, or at its default. */
  function OldValue(s0: Tenant, p: Path, k: Field): Json
    requires p in s0.docs
  {
    if k in s0.docs[p] then s0.docs[p][k]
    else if p.Settings? && k in SETTINGS_DEFAULTS then SETTINGS_DEFAULTS[k]
    else Null
  }

  /** Every field has its old value; a field that was absent is absent, null or at its default. */
  ghost predicate FieldsBack(s0: Tenant, s: Tenant, p: Path)
    requires p in s0.docs && p in s.docs
  {
    && (forall k :: k in s0.docs[p] ==> k in s.docs[p])
    && (forall k :: k in s.docs[p] ==> s.docs[p][k] == OldValue(s0, p, k))
  }

  /** `q` is a revoked grant created again under an id the tenant had never used. */
  ghost predicate Recreates(s0: Tenant, s: Tenant, p: Path, q: Path) {
    && p.Grant? && p in s0.docs && p !in s.docs
    && q.Grant? && q in s.docs && q !in s0.docs && q.id !in s0.used
    && s.docs[q] == GrantCopy(s0.docs[p])
  }

  /**
   The tenant is as it was: every resource is back, a grant possibly under a new id, and nothing
   else exists. `UniqueKeys` makes each recreated grant the only one of its client, audience and
   subject type.
   */
  ghost predicate Restored(s0: Tenant, s: Tenant) {
    && UniqueKeys(s)
    && (forall p :: p in s0.docs && p in s.docs ==> FieldsBack(s0, s, p))
    && (forall p :: p in s0.docs && p !in s.docs ==> exists q :: Recreates(s0, s, p, q))
    && (forall q :: q in s.docs && q !in s0.docs ==> exists p :: Recreates(s0, s, p, q))
  }

  // ---------- what a journal says ----------

  const IDENTITY := {ClientId, Audience, SubjectType, Identifier, ExternalClientId, MetadataType, Name}

  ghost predicate EntryOk(s0: Tenant, e: Entry) {
    match e.verb
    case Patch =>
      && e.path in s0.docs && e.previous.Some? && e.previous.value.Keys == e.data.Keys
      && e.data.Keys !! IDENTITY
      && (forall k :: k in e.data ==> e.previous.value[k] == OldValue(s0, e.path, k))
    case Post =>
      && IsCollection(e.path) && EntryKey(e) != NoKey && !Taken(s0, EntryKey(e))
      && (e.created.Some? ==> e.attempted && HasId(e.created.value) && e.created.value.id !in s0.used)
      && (e.path.Grants? ==> ClientId in e.data && e.data[ClientId].Str?)
    case Delete =>
      && e.path.Grant? && e.path in s0.docs && KeyOf(e.path, s0.docs[e.path]) != NoKey
      && e.previous == Some(GrantCopy(s0.docs[e.path]))
  }

  ghost predicate Conflict(a: Entry, b: Entry) {
    || (a.verb.Post? && b.verb.Post? && EntryKey(a) == EntryKey(b))
    || (a.verb.Delete? && b.verb.Delete? && a.path == b.path)
  }

  ghost predicate JournalOk(s0: Tenant, J: Journal) {
    && (forall i :: 0 <= i < |J| ==> EntryOk(s0, J[i]))
    && (forall i, j :: 0 <= i < j < |J| ==> !Conflict(J[i], J[j]))
  }

  // ---------- how far the tenant may be from where it started ----------

  ghost predicate Deleted(J: Journal, p: Path) {
    exists i :: 0 <= i < |J| && J[i].verb.Delete? && J[i].attempted && J[i].path == p
  }

  ghost predicate Patched(J: Journal, p: Path, k: Field) {
    exists i :: 0 <= i < |J| && J[i].verb.Patch? && J[i].path == p && k in J[i].data
  }

  ghost predicate Kept(s0: Tenant, J: Journal, s: Tenant) {
    forall p :: p in s0.docs && p !in s.docs ==> Deleted(J, p)
  }

  ghost predicate FieldsKept(s0: Tenant, J: Journal, s: Tenant) {
    && (forall p, k :: p in s0.docs && p in s.docs && k in s0.docs[p] ==> k in s.docs[p])
    && (forall p, k :: p in s0.docs && p in s.docs && k in s.docs[p]
          ==> Patched(J, p, k) || (k in s0.docs[p] && s.docs[p][k] == s0.docs[p][k]))
    && (forall p, k :: Patched(J, p, k) && p in s0.docs ==> k !in IDENTITY)
  }

  /** Entry `e` accounts for a resource that was not there before the run. */
  ghost predicate Explains(s: Tenant, e: Entry, q: Path)
    requires q in s.docs
  {
    && !e.verb.Patch? && e.attempted && EntryKey(e) != NoKey && KeyOf(q, s.docs[q]) == EntryKey(e)
    && (e.verb.Delete? ==> q.Grant? && e.previous == Some(s.docs[q]))
  }

  ghost predicate Added(s0: Tenant, J: Journal, s: Tenant) {
    forall q :: q in s.docs && q !in s0.docs ==>
      && HasId(q) && q.id !in s0.used
      && exists i :: 0 <= i < |J| && Explains(s, J[i], q)
  }

  /** A recorded creation is the one resource with its entry's key, as long as it exists. */
  ghost predicate CreatedAlone(J: Journal, s: Tenant) {
    forall i, q :: (0 <= i < |J| && J[i].verb.Post? && J[i].created.Some? && q in s.docs) ==>
      (KeyOf(q, s.docs[q]) == EntryKey(J[i]) <==> q == J[i].created.value)
  }

  ghost predicate CreatedUsed(J: Journal, s: Tenant) {
    forall i :: 0 <= i < |J| && J[i].created.Some? && HasId(J[i].created.value) ==> J[i].created.value.id in s.used
  }

  /** Everything that differs from `s0` is accounted for by an entry of `J`. */
  ghost predicate Accounted(s0: Tenant, J: Journal, s: Tenant) {
    && WellFormed(s0) && WellFormed(s) && s0.used <= s.used
    && JournalOk(s0, J)
    && Kept(s0, J, s) && FieldsKept(s0, J, s) && Added(s0, J, s)
    && CreatedAlone(J, s) && CreatedUsed(J, s)
  }

  // ---------- keys ----------

  lemma KeyUnchanged(s0: Tenant, J: Journal, s: Tenant, p: Path)
    requires Accounted(s0, J, s) && p in s0.docs && p in s.docs
    requires KeyOf(p, s0.docs[p]) != NoKey || KeyOf(p, s.docs[p]) != NoKey
    ensures KeyOf(p, s.docs[p]) == KeyOf(p, s0.docs[p])
  {
    forall k | k in IDENTITY
      ensures k in s.docs[p] <==> k in s0.docs[p]
      ensures k in s0.docs[p] ==> s.docs[p][k] == s0.docs[p][k]
    {
      assert !Patched(J, p, k);
    }
  }

  lemma CopyKeepsKey(f: Fields)
    ensures GrantKeyOf(GrantCopy(f)) == GrantKeyOf(f)
  {
  }

  /** No resource from before the run has the key of something the run posts. */
  lemma PostedKeyIsNew(s0: Tenant, J: Journal, s: Tenant, i: nat, q: Path)
    requires Accounted(s0, J, s) && i < |J| && J[i].verb.Post? && Holds(s, EntryKey(J[i]), q)
    ensures q !in s0.docs && Explains(s, J[i], q)
  {
    if q in s0.docs {
      KeyUnchanged(s0, J, s, q);
      assert Holds(s0, EntryKey(J[i]), q);
    }
    var j :| 0 <= j < |J| && Explains(s, J[j], q);
    if J[j].verb.Delete? {
      CopyKeepsKey(s0.docs[J[j].path]);
      assert Holds(s0, EntryKey(J[i]), J[j].path);
    }
    assert j == i by {
      if j < i { assert Conflict(J[j], J[i]); } else if i < j { assert Conflict(J[i], J[j]); }
    }
  }

  lemma DeletedKeyIsOld(s0: Tenant, e: Entry)
    requires EntryOk(s0, e) && e.verb.Delete?
    ensures EntryKey(e) == KeyOf(e.path, s0.docs[e.path]) != NoKey && Holds(s0, EntryKey(e), e.path)
  {
    CopyKeepsKey(s0.docs[e.path]);
  }

  // ---------- one undo keeps everything accounted for ----------

  lemma RemoveAdded(s0: Tenant, J: Journal, s: Tenant, q: Path, s': Tenant)
    requires Accounted(s0, J, s) && q !in s0.docs && s' == s.(docs := s.docs - {q})
    ensures Accounted(s0, J, s')
  {
    forall p | p in s'.docs && p !in s0.docs
      ensures exists i :: 0 <= i < |J| && Explains(s', J[i], p)
    {
      var i :| 0 <= i < |J| && Explains(s, J[i], p);
      assert Explains(s', J[i], p);
    }
  }

  lemma PatchKeepsKeys(s: Tenant, p: Path, data: Fields, s': Tenant)
    requires WellFormed(s) && p in s.docs && data.Keys !! IDENTITY
    requires s' == s.(docs := s.docs[p := s.docs[p] + data])
    ensures WellFormed(s')
    ensures forall q :: q in s.docs ==> KeyOf(q, s'.docs[q]) == KeyOf(q, s.docs[q])
  {
    var f, f' := s.docs[p], s.docs[p] + data;
    forall k | k in IDENTITY ensures (k in f' <==> k in f) && (k in f ==> f'[k] == f[k]) {}
    assert KeyOf(p, f') == KeyOf(p, f);
    assert DocOk(s, p);
    forall q | q in s'.docs ensures DocOk(s', q) { assert DocOk(s, q); }
  }

  /** Writing any values at the fields a `patch` entry is about. */
  lemma PatchKeepsAccount(s0: Tenant, J: Journal, s: Tenant, i: nat, data: Fields, s': Tenant)
    requires Accounted(s0, J, s) && i < |J| && J[i].verb.Patch? && J[i].path in s.docs
    requires data.Keys == J[i].data.Keys
    requires s' == s.(docs := s.docs[J[i].path := s.docs[J[i].path] + data])
    ensures Accounted(s0, J, s')
  {
    var e := J[i];
    assert EntryOk(s0, e);
    forall k | k in data ensures Patched(J, e.path, k) { assert k in e.data; }
    PatchKeepsKeys(s, e.path, data, s');
    forall q | q in s'.docs && q !in s0.docs
      ensures exists j :: 0 <= j < |J| && Explains(s', J[j], q)
    {
      var j :| 0 <= j < |J| && Explains(s, J[j], q);
      assert Explains(s', J[j], q);
    }
  }

  lemma AddKeepsWellFormed(s: Tenant, q: Path, f: Fields, s': Tenant)
    requires WellFormed(s) && HasId(q) && Fresh(s, q.id)
    requires s' == s.(docs := s.docs[q := f], used := s.used + {q.id})
    requires KeyOf(q, f) != NoKey ==> !Taken(s, KeyOf(q, f))
    requires DocOk(s', q)
    ensures WellFormed(s') && q !in s.docs
  {
    assert q in s.docs ==> DocOk(s, q);
    forall p | p in s'.docs ensures DocOk(s', p) { assert p != q ==> DocOk(s, p); }
    forall p | p in s.docs && KeyOf(q, f) != NoKey ensures KeyOf(p, s.docs[p]) != KeyOf(q, f) {
      assert !Holds(s, KeyOf(q, f), p);
    }
  }

  lemma AddKeepsAccount(s0: Tenant, J: Journal, s: Tenant, i: nat, q: Path, f: Fields, s': Tenant)
    requires Accounted(s0, J, s) && i < |J| && WellFormed(s')
    requires q !in s.docs && HasId(q) && q.id !in s.used
    requires s' == s.(docs := s.docs[q := f], used := s.used + {q.id})
    requires Explains(s', J[i], q)
    requires forall j :: 0 <= j < |J| && J[j].verb.Post? && J[j].created.Some? ==> EntryKey(J[j]) != EntryKey(J[i])
    ensures Accounted(s0, J, s')
  {
    assert q in s0.docs ==> DocOk(s0, q);
    forall p | p in s'.docs && p !in s0.docs
      ensures HasId(p) && p.id !in s0.used && exists j :: 0 <= j < |J| && Explains(s', J[j], p)
    {
      if p != q {
        var j :| 0 <= j < |J| && Explains(s, J[j], p);
        assert Explains(s', J[j], p);
      }
    }
  }

  lemma CreateAgain(s0: Tenant, J: Journal, s: Tenant, i: nat, id: string, s': Tenant)
    requires Accounted(s0, J, s) && i < |J| && J[i].verb.Delete? && J[i].attempted
    requires !Taken(s, EntryKey(J[i])) && Fresh(s, id)
    requires EntryOk(s0, J[i])
    requires s' == s.(docs := s.docs[Grant(id) := J[i].previous.value], used := s.used + {id})
    ensures Accounted(s0, J, s')
  {
    var e, q := J[i], Grant(id);
    DeletedKeyIsOld(s0, e);
    assert DocOk(s', q) by { assert DocOk(s0, e.path); }
    AddKeepsWellFormed(s, q, e.previous.value, s');
    forall j | 0 <= j < |J| && J[j].verb.Post? && J[j].created.Some? ensures EntryKey(J[j]) != EntryKey(e) {
      assert EntryOk(s0, J[j]);
    }
    AddKeepsAccount(s0, J, s, i, q, e.previous.value, s');
  }

  // ---------- what one successful undo achieves, and that it lasts ----------

  ghost predicate IsUndone(e: Entry, s: Tenant) {
    match e.verb
    case Post => !Taken(s, EntryKey(e))
    case Delete => Taken(s, EntryKey(e))
    case Patch =>
      e.previous.Some? && e.path in s.docs ==>
        forall k :: k in e.previous.value ==> k in s.docs[e.path] && s.docs[e.path][k] == e.previous.value[k]
  }

  lemma UndoKeepsAccount(s0: Tenant, J: Journal, s: Tenant, i: nat, a: Attempt)
    requires Accounted(s0, J, s) && i < |J|
    ensures Accounted(s0, J, UndoOne(s, J[i], a).tenant)
  {
    var e := J[i];
    var s' := UndoOne(s, e, a).tenant;
    assert EntryOk(s0, e);
    if s' != s {
      var r := UndoRequest(s, e).value;
      match e.verb {
        case Post =>
          if e.created.None? { PostedKeyIsNew(s0, J, s, i, r.path); }
          assert forall p :: p in s0.docs ==> DocOk(s0, p);
          RemoveAdded(s0, J, s, r.path, s');
        case Delete =>
          DeletedKeyIsOld(s0, e);
          CreateAgain(s0, J, s, i, a.id, s');
        case Patch =>
          PatchKeepsAccount(s0, J, s, i, e.previous.value, s');
      }
    }
  }

  lemma UndoAchieves(s0: Tenant, J: Journal, s: Tenant, i: nat, a: Attempt)
    requires Accounted(s0, J, s) && i < |J| && UndoOne(s, J[i], a).ok
    ensures IsUndone(J[i], UndoOne(s, J[i], a).tenant)
  {
    var e := J[i];
    var s' := UndoOne(s, e, a).tenant;
    assert EntryOk(s0, e);
    match e.verb {
      case Post =>
        if q :| Holds(s', EntryKey(e), q) {
          assert Holds(s, EntryKey(e), q);
          PostedKeyIsNew(s0, J, s, i, q);
          assert false;
        }
      case Delete =>
        DeletedKeyIsOld(s0, e);
        if e.attempted {
          if FindCreated(s, e).None? {
            var q := Grant(a.id);
            assert s'.docs[q] == e.previous.value;
            assert Holds(s', EntryKey(e), q);
          }
        } else {
          if e.path !in s.docs {
            var j :| 0 <= j < |J| && J[j].verb.Delete? && J[j].attempted && J[j].path == e.path;
            if j < i { assert Conflict(J[j], J[i]); } else { assert Conflict(J[i], J[j]); }
          }
          KeyUnchanged(s0, J, s, e.path);
          assert Holds(s, EntryKey(e), e.path);
        }
      case Patch =>
    }
  }

  lemma EntryIsOk(s0: Tenant, J: Journal, s: Tenant, i: nat)
    requires Accounted(s0, J, s) && i < |J|
    ensures EntryOk(s0, J[i])
    ensures J[i].path in s0.docs ==> DocOk(s0, J[i].path)
    ensures forall q :: q in s.docs ==> DocOk(s, q)
  {
  }

  /** An undo that changes the tenant does exactly one of three things. */
  lemma UndoShape(s: Tenant, e: Entry, a: Attempt)
    requires UndoOne(s, e, a).tenant != s
    ensures var s' := UndoOne(s, e, a).tenant; var r := UndoRequest(s, e);
      && r.Some? && !a.Refused?
      && match e.verb
         case Post => s' == s.(docs := s.docs - {r.value.path}) && r.value.path in s.docs
         case Delete =>
           && e.previous.Some? && Fresh(s, a.id)
           && s' == s.(docs := s.docs[Grant(a.id) := e.previous.value], used := s.used + {a.id})
         case Patch =>
           && e.path in s.docs && e.previous.Some?
           && s' == s.(docs := s.docs[e.path := s.docs[e.path] + e.previous.value])
  {
  }

  /** What a `post` entry's undo deletes has that entry's key. */
  lemma UndoneCreation(s0: Tenant, J: Journal, s: Tenant, i: nat)
    requires Accounted(s0, J, s) && i < |J| && J[i].verb.Post?
    ensures var r := UndoRequest(s, J[i]);
      r.Some? && r.value.path in s.docs ==> KeyOf(r.value.path, s.docs[r.value.path]) == EntryKey(J[i])
  {
  }

  /** What happens to keys when the undo changes the tenant into `s'`. */
  ghost predicate KeysKept(s0: Tenant, s: Tenant, s': Tenant, key: Key, q: Path) {
    && (Taken(s0, key) && Holds(s, key, q) ==> Holds(s', key, q))
    && (!Taken(s0, key) && Holds(s', key, q) ==> Holds(s, key, q))
  }

  lemma RemovalKeepsKeys(s0: Tenant, s: Tenant, p: Path, key: Key, q: Path)
    requires p in s.docs && !Taken(s0, KeyOf(p, s.docs[p]))
    ensures KeysKept(s0, s, s.(docs := s.docs - {p}), key, q)
  {
    hide KeyOf, Taken;
  }

  lemma RecreationKeepsKeys(s0: Tenant, s: Tenant, f: Fields, id: string, key: Key, q: Path)
    requires Taken(s0, GrantKeyOf(f)) && Grant(id) !in s.docs
    ensures KeysKept(s0, s, s.(docs := s.docs[Grant(id) := f], used := s.used + {id}), key, q)
  {
    hide GrantKeyOf, Taken;
  }

  /** An undo never takes away a key from before the run, nor brings in one that is not. */
  lemma UndoKeepsKeys(s0: Tenant, J: Journal, s: Tenant, i: nat, a: Attempt, key: Key, q: Path)
    requires Accounted(s0, J, s) && i < |J| && key != NoKey
    ensures var s' := UndoOne(s, J[i], a).tenant;
      && (Taken(s0, key) && Holds(s, key, q) ==> Holds(s', key, q))
      && (!Taken(s0, key) && Holds(s', key, q) ==> Holds(s, key, q))
  {
    hide Accounted, UndoOne, UndoRequest, WellFormed, Taken, Holds, KeyOf, EntryKey;
    var e := J[i];
    EntryIsOk(s0, J, s, i);
    AccountedWellFormed(s0, J, s);
    if UndoOne(s, e, a).tenant != s {
      UndoShape(s, e, a);
      match e.verb {
        case Post =>
          UndoneCreation(s0, J, s, i);
          RemovalKeepsKeys(s0, s, UndoRequest(s, e).value.path, key, q);
        case Delete =>
          DeletedKeyIsOld(s0, e);
          DeletedKey(e);
          HeldIsTaken(s0, EntryKey(e), e.path);
          FreshIsNew(s, a.id);
          RecreationKeepsKeys(s0, s, e.previous.value, a.id, key, q);
        case Patch =>
          var s' := UndoOne(s, e, a).tenant;
          PatchKeepsKeys(s, e.path, e.previous.value, s');
          SameKeysKept(s0, s, s', key, q);
      }
    }
  }

  lemma SameKeysKept(s0: Tenant, s: Tenant, s': Tenant, key: Key, q: Path)
    requires s'.docs.Keys == s.docs.Keys && forall p :: p in s.docs ==> KeyOf(p, s'.docs[p]) == KeyOf(p, s.docs[p])
    ensures KeysKept(s0, s, s', key, q)
  {
    hide KeyOf, Taken;
  }

  lemma HeldIsTaken(s: Tenant, key: Key, p: Path)
    requires Holds(s, key, p)
    ensures Taken(s, key)
  {
  }

  lemma DeletedKey(e: Entry)
    requires e.verb.Delete? && e.previous.Some?
    ensures EntryKey(e) == GrantKeyOf(e.previous.value)
  {
  }

  lemma FreshIsNew(s: Tenant, id: string)
    requires WellFormed(s) && Fresh(s, id)
    ensures Grant(id) !in s.docs
  {
    assert Grant(id) in s.docs ==> DocOk(s, Grant(id));
  }

  lemma AccountedWellFormed(s0: Tenant, J: Journal, s: Tenant)
    requires Accounted(s0, J, s)
    ensures WellFormed(s0) && WellFormed(s) && s0.used <= s.used
  {
  }

  lemma PatchStaysUndone(s0: Tenant, s: Tenant, e: Entry, f: Entry, a: Attempt)
    requires WellFormed(s0) && s0.used <= s.used && EntryOk(s0, e)
    requires f.verb.Patch? && EntryOk(s0, f) && IsUndone(f, s)
    ensures IsUndone(f, UndoOne(s, e, a).tenant)
  {
    var s' := UndoOne(s, e, a).tenant;
    if s' != s {
      UndoShape(s, e, a);
      hide UndoOne, UndoRequest, UniqueKeys;
      assert DocOk(s0, f.path);
    }
  }

  lemma UndoLasts(s0: Tenant, J: Journal, s: Tenant, i: nat, j: nat, a: Attempt)
    requires Accounted(s0, J, s) && i < |J| && j < |J| && IsUndone(J[j], s)
    ensures IsUndone(J[j], UndoOne(s, J[i], a).tenant)
  {
    EntryIsOk(s0, J, s, i);
    EntryIsOk(s0, J, s, j);
    var f := J[j];
    match f.verb {
      case Patch =>
        AccountedWellFormed(s0, J, s);
        PatchStaysUndone(s0, s, J[i], f, a);
      case _ =>
        hide Accounted, UndoOne;
        if f.verb.Delete? { DeletedKeyIsOld(s0, f); }
        var s' := UndoOne(s, J[i], a).tenant;
        forall q ensures Holds(s, EntryKey(f), q) && f.verb.Delete? ==> Holds(s', EntryKey(f), q)
          ensures Holds(s', EntryKey(f), q) && f.verb.Post? ==> Holds(s, EntryKey(f), q)
        {
          UndoKeepsKeys(s0, J, s, i, a, EntryKey(f), q);
        }
    }
  }

  // ---------- a rollback ----------

  lemma {:induction false} RollbackKeepsAccount(s0: Tenant, J: Journal, s: Tenant, n: nat, attempts: seq<Attempt>)
    requires Accounted(s0, J, s) && n <= |J|
    ensures Accounted(s0, J, RollbackFrom(s, J, n, attempts).tenant)
    decreases n
  {
    hide Accounted, UndoOne;
    if n > 0 && attempts != [] {
      UndoKeepsAccount(s0, J, s, n - 1, attempts[0]);
      RollbackKeepsAccount(s0, J, UndoOne(s, J[n - 1], attempts[0]).tenant, n - 1, attempts[1..]);
    }
  }

  lemma {:induction false} RollbackLasts(s0: Tenant, J: Journal, s: Tenant, n: nat, j: nat, attempts: seq<Attempt>)
    requires Accounted(s0, J, s) && n <= |J| && j < |J| && IsUndone(J[j], s)
    ensures IsUndone(J[j], RollbackFrom(s, J, n, attempts).tenant)
    decreases n
  {
    hide Accounted, UndoOne, IsUndone;
    if n > 0 && attempts != [] {
      UndoKeepsAccount(s0, J, s, n - 1, attempts[0]);
      UndoLasts(s0, J, s, n - 1, j, attempts[0]);
      RollbackLasts(s0, J, UndoOne(s, J[n - 1], attempts[0]).tenant, n - 1, j, attempts[1..]);
    }
  }

  /** A rollback that names no failure has undone every entry it went through. */
  lemma {:induction false} CleanRollbackUndoes(s0: Tenant, J: Journal, s: Tenant, n: nat, attempts: seq<Attempt>)
    requires Accounted(s0, J, s) && n <= |J|
    requires RollbackFrom(s, J, n, attempts).failures == 0
    ensures forall j :: 0 <= j < n ==> IsUndone(J[j], RollbackFrom(s, J, n, attempts).tenant)
    decreases n
  {
    hide Accounted, UndoOne, IsUndone;
    if n > 0 {
      var s' := UndoOne(s, J[n - 1], attempts[0]).tenant;
      UndoKeepsAccount(s0, J, s, n - 1, attempts[0]);
      UndoAchieves(s0, J, s, n - 1, attempts[0]);
      RollbackLasts(s0, J, s', n - 1, n - 1, attempts[1..]);
      CleanRollbackUndoes(s0, J, s', n - 1, attempts[1..]);
    }
  }

  lemma {:induction false} RollbacksKeepAccount(s0: Tenant, J: Journal, s: Tenant, tries: seq<seq<Attempt>>)
    requires Accounted(s0, J, s)
    ensures Accounted(s0, J, Rollbacks(s, J, tries))
    decreases |tries|
  {
    if tries != [] {
      RollbackKeepsAccount(s0, J, s, |J|, tries[0]);
      RollbacksKeepAccount(s0, J, RollbackFrom(s, J, |J|, tries[0]).tenant, tries[1..]);
    }
  }

  lemma AllUndoneRestores(s0: Tenant, J: Journal, s: Tenant)
    requires Accounted(s0, J, s)
    requires forall j :: 0 <= j < |J| ==> IsUndone(J[j], s)
    ensures Restored(s0, s)
  {
    forall p | p in s0.docs && p in s.docs ensures FieldsBack(s0, s, p) {
      forall k | k in s.docs[p] ensures s.docs[p][k] == OldValue(s0, p, k) {
        if j :| 0 <= j < |J| && J[j].verb.Patch? && J[j].path == p && k in J[j].data {
          assert EntryOk(s0, J[j]) && IsUndone(J[j], s);
        } else {
          assert !Patched(J, p, k);
        }
      }
    }
    forall p | p in s0.docs && p !in s.docs ensures exists q :: Recreates(s0, s, p, q) {
      var j :| 0 <= j < |J| && J[j].verb.Delete? && J[j].attempted && J[j].path == p;
      GoneIsRecreated(s0, J, s, j);
    }
    forall q | q in s.docs && q !in s0.docs ensures exists p :: Recreates(s0, s, p, q) {
      var j :| 0 <= j < |J| && Explains(s, J[j], q);
      assert EntryOk(s0, J[j]) && IsUndone(J[j], s);
      if J[j].verb.Post? { assert Holds(s, EntryKey(J[j]), q); }
      AddedIsRecreated(s0, J, s, j, q);
    }
  }

  lemma AddedIsRecreated(s0: Tenant, J: Journal, s: Tenant, j: nat, q: Path)
    requires Accounted(s0, J, s) && j < |J| && J[j].verb.Delete?
    requires q in s.docs && q !in s0.docs && Explains(s, J[j], q)
    ensures Recreates(s0, s, J[j].path, q)
  {
    var p := J[j].path;
    assert EntryOk(s0, J[j]);
    DeletedKeyIsOld(s0, J[j]);
    if p in s.docs {
      KeyUnchanged(s0, J, s, p);
      assert false;
    }
  }

  lemma GoneIsRecreated(s0: Tenant, J: Journal, s: Tenant, j: nat)
    requires Accounted(s0, J, s) && j < |J| && J[j].verb.Delete? && IsUndone(J[j], s)
    requires J[j].path !in s.docs
    ensures exists q :: Recreates(s0, s, J[j].path, q)
  {
    var p, key := J[j].path, EntryKey(J[j]);
    assert EntryOk(s0, J[j]);
    DeletedKeyIsOld(s0, J[j]);
    var q :| Holds(s, key, q);
    if q in s0.docs {
      KeyUnchanged(s0, J, s, q);
      assert false;
    }
    var i :| 0 <= i < |J| && Explains(s, J[i], q);
    assert EntryOk(s0, J[i]);
    assert J[i].verb.Delete?;
    DeletedKeyIsOld(s0, J[i]);
    assert KeyOf(J[i].path, s0.docs[J[i].path]) == KeyOf(p, s0.docs[p]);
    AddedIsRecreated(s0, J, s, i, q);
  }

  lemma RollbackRestores(s0: Tenant, J: Journal, s: Tenant, tries: seq<seq<Attempt>>, last: seq<Attempt>)
    requires Accounted(s0, J, s)
    requires RollbackFrom(Rollbacks(s, J, tries), J, |J|, last).failures == 0
    ensures Restored(s0, RollbackFrom(Rollbacks(s, J, tries), J, |J|, last).tenant)
  {
    var t := Rollbacks(s, J, tries);
    RollbacksKeepAccount(s0, J, s, tries);
    RollbackKeepsAccount(s0, J, t, |J|, last);
    CleanRollbackUndoes(s0, J, t, |J|, last);
    AllUndoneRestores(s0, J, RollbackFrom(t, J, |J|, last).tenant);
  }
}
