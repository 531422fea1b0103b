/** The optimistic digest check: when it lets `apply` write, what is written is what was previewed. */
module BrandingPreview {
  import opened Prelude
  import opened JsonTree
  import opened JsonCanonical
  import opened JsonSorted
  import opened JsonDigest
  import opened Branding

  function PromptMember(r: Remote, p: Prompt): Member<Json> {
    Member(PromptKey(p.prompt, p.language), Obj(PromptText(r, p)))
  }

  function PromptState(r: Remote, d: Loaded, n: nat): Fields
    requires n <= |d.prompts|
  {
    if n == 0 then [] else PromptState(r, d, n - 1) + [PromptMember(r, d.prompts[n - 1])]
  }

  function ThemeState(r: Remote, d: Loaded): Fields
    requires ThemeId(r.theme).Ok?
  {
    var id := ThemeId(r.theme).value;
    var managed := ManagedTheme(r.theme, d.theme);
    [Member("themeId", if id.Some? then Str(id.value) else Null),
     Member("managed", if managed.Some? then Obj(managed.value) else Null)]
  }

  function DigestParts(r: Remote, d: Loaded): seq<string>
    requires ThemeId(r.theme).Ok?
  {
    [Canonical(Obj(ThemeState(r, d))),
     Canonical(Obj(Project(r.tenant, d.tenant))),
     Canonical(Obj(PromptState(r, d, |d.prompts|)))]
  }

  /** `remoteDigest`, the hash taken as injective. */
  function RemoteDigest(r: Remote, d: Loaded): string
    requires ThemeId(r.theme).Ok?
  {
    DigestInput(DigestParts(r, d))
  }

  // ---------- what the digest tells ----------

  /** The two remotes show the files the same, the marker standing for everything missing. */
  ghost predicate LookAlike(r: Remote, s: Remote, d: Loaded)
    requires ThemeId(r.theme).Ok? && ThemeId(s.theme).Ok?
  {
    && ThemeId(r.theme).value == ThemeId(s.theme).value
    && (r.theme.None? <==> s.theme.None?)
    && (r.theme.Some? ==> ManagedAlike(r.theme.value, s.theme.value, d.theme))
    && ManagedAlike(r.tenant, s.tenant, d.tenant)
    && forall i :: 0 <= i < |d.prompts| ==>
      DeepEqual(Obj(PromptText(r, d.prompts[i])), Obj(PromptText(s, d.prompts[i])))
  }

  ghost predicate ManagedAlike(r: Fields, s: Fields, desired: Fields) {
    DeepEqual(Plain(Obj(Project(r, desired))), Plain(Obj(Project(s, desired))))
  }

  lemma KeysApart(p: string, l: string, q: string, m: string)
    requires PromptPart(p) && PromptPart(q) && PromptKey(p, l) == PromptKey(q, m)
    ensures p == q && l == m
  {
    var t := PromptKey(p, l);
    assert t[|p|] == '/' && t[|q|] == '/';
    assert forall i :: 0 <= i < |p| ==> t[i] == p[i];
    assert forall i :: 0 <= i < |q| ==> t[i] == q[i];
    assert t[..|p|] == p && t[..|q|] == q;
    assert t[|p| + 1..] == l && t[|q| + 1..] == m;
  }

  lemma PromptMemberOk(r: Remote, d: Loaded, i: nat)
    requires LoadedOk(d) && RemoteOk(r) && i < |d.prompts|
    ensures Valid(PromptMember(r, d.prompts[i]).value) && Whole(PromptMember(r, d.prompts[i]).value)
    ensures forall j :: 0 <= j < i ==> PromptMember(r, d.prompts[j]).key != PromptMember(r, d.prompts[i]).key
  {
    EmptyIsDocument();
    var last := d.prompts[i];
    hide PromptKey;
    forall j | 0 <= j < i && PromptMember(r, d.prompts[j]).key == PromptMember(r, last).key ensures false {
      KeysApart(d.prompts[j].prompt, d.prompts[j].language, last.prompt, last.language);
    }
  }

  lemma {:induction false} PromptStateAt(r: Remote, d: Loaded, n: nat)
    requires LoadedOk(d) && RemoteOk(r) && n <= |d.prompts|
    ensures |PromptState(r, d, n)| == n
    ensures forall i :: 0 <= i < n ==> PromptState(r, d, n)[i] == PromptMember(r, d.prompts[i])
    ensures Valid(Obj(PromptState(r, d, n))) && Whole(Obj(PromptState(r, d, n)))
  {
    hide PromptMember, LoadedOk, RemoteOk;
    if n > 0 {
      PromptStateAt(r, d, n - 1);
      PromptMemberOk(r, d, n - 1);
    }
  }

  lemma ValidFields(fs: Fields)
    requires Valid(Obj(fs))
    ensures DistinctKeys(fs) && forall i :: 0 <= i < |fs| ==> Valid(fs[i].value)
  {
  }

  /** Objects with the same keys in the same places are compared place by place. */
  lemma PlaceByPlace(fs: Fields, gs: Fields)
    requires DistinctKeys(fs) && DistinctKeys(gs) && |fs| == |gs|
    requires forall i :: 0 <= i < |fs| ==> fs[i].key == gs[i].key
    ensures DeepEqual(Obj(fs), Obj(gs)) <==> forall i :: 0 <= i < |fs| ==> DeepEqual(fs[i].value, gs[i].value)
  {
    forall i | 0 <= i < |fs| ensures Get(gs, fs[i].key) == gs[i].value { GetAt(gs, i); }
    assert Keys(fs) == Keys(gs);
  }

  lemma PromptStatesTell(r: Remote, s: Remote, d: Loaded)
    requires RemoteOk(r) && RemoteOk(s) && LoadedOk(d)
    ensures var n := |d.prompts|;
      Canonical(Obj(PromptState(r, d, n))) == Canonical(Obj(PromptState(s, d, n)))
      <==> forall i :: 0 <= i < |d.prompts| ==>
        DeepEqual(Obj(PromptText(r, d.prompts[i])), Obj(PromptText(s, d.prompts[i])))
  {
    hide Canonical, Plain, Whole, Valid, DeepEqual, PromptState, PromptText, LoadedOk, RemoteOk, PromptKey, Keys;
    var n := |d.prompts|;
    PromptStateAt(r, d, n);
    PromptStateAt(s, d, n);
    var a, b := PromptState(r, d, n), PromptState(s, d, n);
    CanonicalTells(Obj(a), Obj(b));
    WholeIsPlain(Obj(a));
    WholeIsPlain(Obj(b));
    ValidFields(a);
    ValidFields(b);
    PlaceByPlace(a, b);
  }

  lemma ThemeStateValid(r: Remote, d: Loaded)
    requires RemoteOk(r) && LoadedOk(d) && ThemeId(r.theme).Ok?
    ensures Valid(Obj(ThemeState(r, d)))
  {
    if r.theme.Some? { ProjectValid(r.theme.value, d.theme); }
    hide Project, RemoteOk, LoadedOk, ThemeId;
    assert forall i :: 0 <= i < 2 ==> Valid(ThemeState(r, d)[i].value);
  }

  lemma ThemeStatesTell(r: Remote, s: Remote, d: Loaded)
    requires RemoteOk(r) && RemoteOk(s) && LoadedOk(d) && ThemeId(r.theme).Ok? && ThemeId(s.theme).Ok?
    ensures Canonical(Obj(ThemeState(r, d))) == Canonical(Obj(ThemeState(s, d))) <==>
      && ThemeId(r.theme).value == ThemeId(s.theme).value
      && (r.theme.None? <==> s.theme.None?)
      && (r.theme.Some? && s.theme.Some? ==> ManagedAlike(r.theme.value, s.theme.value, d.theme))
  {
    hide Canonical, RemoteOk, LoadedOk, Project, ThemeId, Valid, Whole, Keys, Plain, PlainFields, DeepEqual;
    ThemeStateValid(r, d);
    ThemeStateValid(s, d);
    var a, b := ThemeState(r, d), ThemeState(s, d);
    CanonicalTells(Obj(a), Obj(b));
    PlainOfObject(a);
    PlainOfObject(b);
    PlainFieldsAt(a);
    PlainFieldsAt(b);
    ValidFields(a);
    ValidFields(b);
    PlaceByPlace(PlainFields(a), PlainFields(b));
    PlainOfLeaf(a[0].value);
    PlainOfLeaf(b[0].value);
    PlainOfLeaf(a[1].value);
    PlainOfLeaf(b[1].value);
    assert forall i :: 0 <= i < 2 ==> PlainFields(a)[i].value == Plain(a[i].value);
    assert forall i :: 0 <= i < 2 ==> PlainFields(b)[i].value == Plain(b[i].value);
    LeafAlike(Plain(a[0].value), Plain(b[0].value));
    LeafAlike(Plain(a[1].value), Plain(b[1].value));
    LeafAlike(Plain(b[1].value), Plain(a[1].value));
  }

  lemma PlainOfLeaf(v: Json)
    ensures v.Null? || v.Str? ==> Plain(v) == v
    ensures v.Obj? ==> Plain(v).Obj?
  {
  }

  lemma LeafAlike(v: Json, w: Json)
    ensures v.Null? || v.Str? ==> (DeepEqual(v, w) <==> v == w)
    ensures v.Obj? && DeepEqual(v, w) ==> w.Obj?
  {
  }

  lemma DigestPartsNulFree(r: Remote, d: Loaded)
    requires RemoteOk(r) && LoadedOk(d) && ThemeId(r.theme).Ok?
    ensures AllNulFree(DigestParts(r, d))
  {
    hide Canonical, ThemeState, PromptState, Project, NulFree, Valid, RemoteOk, LoadedOk, ThemeId;
    ThemeStateValid(r, d);
    PartsValid(r, d);
    CanonicalNulFree(Obj(ThemeState(r, d)));
    CanonicalNulFree(Obj(Project(r.tenant, d.tenant)));
    CanonicalNulFree(Obj(PromptState(r, d, |d.prompts|)));
  }

  lemma PartsValid(r: Remote, d: Loaded)
    requires RemoteOk(r) && LoadedOk(d)
    ensures Valid(Obj(Project(r.tenant, d.tenant))) && Valid(Obj(PromptState(r, d, |d.prompts|)))
  {
    hide Project, PromptState, Valid, Whole;
    ProjectValid(r.tenant, d.tenant);
    PromptStateAt(r, d, |d.prompts|);
  }

  /** Two remotes have the same digest exactly when they look alike to the files. */
  lemma DigestTellsRemotes(r: Remote, s: Remote, d: Loaded)
    requires RemoteOk(r) && RemoteOk(s) && LoadedOk(d) && ThemeId(r.theme).Ok? && ThemeId(s.theme).Ok?
    ensures RemoteDigest(r, d) == RemoteDigest(s, d) <==> LookAlike(r, s, d)
  {
    hide Canonical, ThemeState, PromptState, Project, NulFree, DeepEqual, Plain, PromptText;
    DigestPartsNulFree(r, d);
    DigestPartsNulFree(s, d);
    ProjectValid(r.tenant, d.tenant);
    ProjectValid(s.tenant, d.tenant);
    hide Valid, ThemeId, RemoteOk, LoadedOk;
    DigestTells(DigestParts(r, d), DigestParts(s, d));
    ThemeStatesTell(r, s, d);
    CanonicalTells(Obj(Project(r.tenant, d.tenant)), Obj(Project(s.tenant, d.tenant)));
    PromptStatesTell(r, s, d);
  }

  // ---------- same digest, same writes ----------

  /** The change without what it replaces: the request that `apply` sends. */
  function WriteOf(c: Change): Change {
    match c
    case ThemeChange(id, _, after) => ThemeChange(id, None, after)
    case TenantChange(_, after) => TenantChange([], after)
    case PromptChange(p, l, _, after) => PromptChange(p, l, [], after)
  }

  function Writes(cs: seq<Change>): seq<Change> {
    if cs == [] then [] else [WriteOf(cs[0])] + Writes(cs[1..])
  }

  lemma {:induction false} WritesConcat(xs: seq<Change>, ys: seq<Change>)
    ensures Writes(xs + ys) == Writes(xs) + Writes(ys)
  {
    hide WriteOf;
    if xs == [] {
      assert xs + ys == ys;
    } else {
      WritesConcat(xs[1..], ys);
      assert (xs + ys)[0] == xs[0] && (xs + ys)[1..] == xs[1..] + ys;
    }
  }

  /** Some object inside the declared tree is the very object that stands for a missing value. */
  predicate UsesMarker(desired: Fields) {
    exists i :: 0 <= i < |desired| && ValueUsesMarker(desired[i].value)
  }

  predicate ValueUsesMarker(v: Json) { v == MARKER || (v.Obj? && UsesMarker(v.fields)) }

  /** With no marker declared, a remote meets the files exactly when its text shows it does. */
  lemma {:induction false} PlainShowsMatch(remote: Fields, desired: Fields)
    requires Document(remote) && Document(desired) && !UsesMarker(desired)
    ensures DeepEqual(Obj(Project(remote, desired)), Obj(desired))
      <==> DeepEqual(Plain(Obj(Project(remote, desired))), Obj(desired))
    decreases desired
  {
    var fs := Project(remote, desired);
    ProjectAt(remote, desired);
    PlainFieldsAt(fs);
    PlaceByPlace(fs, desired);
    PlaceByPlace(PlainFields(fs), desired);
    hide DeepEqual, Project, Plain, PlainFields;
    forall i | 0 <= i < |desired|
      ensures DeepEqual(fs[i].value, desired[i].value) <==> DeepEqual(Plain(fs[i].value), desired[i].value) {
      PlainShowsValue(remote, desired, i);
    }
    assert Plain(Obj(fs)) == Obj(PlainFields(fs)) by { PlainOfObject(fs); }
  }

  lemma {:induction false} PlainShowsValue(remote: Fields, desired: Fields, i: nat)
    requires Document(remote) && Document(desired) && !UsesMarker(desired) && i < |desired|
    ensures var p := ProjectValue(Get(remote, desired[i].key), desired[i].value);
      DeepEqual(p, desired[i].value) <==> DeepEqual(Plain(p), desired[i].value)
    decreases desired, 0
  {
    var v, rv := desired[i].value, Get(remote, desired[i].key);
    GetKey(remote, desired[i].key);
    assert !ValueUsesMarker(v);
    if v.Obj? && rv.Obj? {
      assert Document(rv.fields) && Document(v.fields);
      PlainShowsMatch(rv.fields, v.fields);
    } else if rv.Missing? {
      assert Whole(v);
      if DeepEqual(MARKER, v) {
        WholeIsPlain(v);
        OnlyMarkerLooksLikeIt(v.fields);
      }
    } else {
      WholeIsPlain(rv);
    }
  }

  lemma ManagedMatchesAlike(r: Fields, s: Fields, desired: Fields)
    requires Document(r) && Document(s) && Document(desired) && !UsesMarker(desired) && ManagedAlike(r, s, desired)
    ensures DeepEqual(Obj(Project(r, desired)), Obj(desired)) <==> DeepEqual(Obj(Project(s, desired)), Obj(desired))
  {
    hide DeepEqual, Project, Plain, Valid, Whole, UsesMarker;
    ProjectValid(r, desired);
    ProjectValid(s, desired);
    var a, b := Plain(Obj(Project(r, desired))), Plain(Obj(Project(s, desired)));
    PlainIsWhole(Obj(Project(r, desired)));
    PlainIsWhole(Obj(Project(s, desired)));
    PlainShowsMatch(r, desired);
    PlainShowsMatch(s, desired);
    DeepEquivalence(a, b, Obj(desired));
    DeepEquivalence(b, a, Obj(desired));
  }

  lemma PromptStepAlike(r: Remote, s: Remote, p: Prompt)
    requires RemoteOk(r) && RemoteOk(s) && Document(p.text)
    requires DeepEqual(Obj(PromptText(r, p)), Obj(PromptText(s, p)))
    ensures Writes(PromptStep(r, p)) == Writes(PromptStep(s, p))
  {
    hide DeepEqual, Valid, Whole;
    EmptyIsDocument();
    var a, b := PromptText(r, p), PromptText(s, p);
    assert Document(a) && Document(b);
    hide PromptText, RemoteOk;
    DeepEquivalence(Obj(a), Obj(b), Obj(p.text));
    DeepEquivalence(Obj(b), Obj(a), Obj(p.text));
  }

  lemma {:induction false} PromptWritesAlike(r: Remote, s: Remote, d: Loaded, n: nat)
    requires RemoteOk(r) && RemoteOk(s) && LoadedOk(d) && n <= |d.prompts|
    requires forall i :: 0 <= i < |d.prompts| ==>
      DeepEqual(Obj(PromptText(r, d.prompts[i])), Obj(PromptText(s, d.prompts[i])))
    ensures Writes(PromptChanges(r, d, n)) == Writes(PromptChanges(s, d, n))
  {
    hide DeepEqual, Document, PromptText, RemoteOk, Writes;
    if n > 0 {
      PromptWritesAlike(r, s, d, n - 1);
      var p := d.prompts[n - 1];
      PromptStepAlike(r, s, p);
      WritesConcat(PromptChanges(r, d, n - 1), PromptStep(r, p));
      WritesConcat(PromptChanges(s, d, n - 1), PromptStep(s, p));
    }
  }

  /** A remote the program accepts. */
  ghost predicate Accepted(r: Remote) { RemoteOk(r) && ThemeId(r.theme).Ok? }

  /** Files in which a marker can be taken for a missing value without notice. */
  predicate Exposed(d: Loaded) { UsesMarker(d.theme) && ThemeId(Some(d.theme)).Ok? }

  lemma TenantUsesNoMarker(tenant: Fields)
    requires TenantShape(tenant)
    ensures !UsesMarker(tenant)
  {
    assert forall i :: 0 <= i < |tenant| ==> tenant[i].value.Str? && !ValueUsesMarker(tenant[i].value);
  }

  ghost predicate SameDigestSameWrites(r: Remote, s: Remote, d: Loaded)
    requires Accepted(r) && Accepted(s)
  {
    RemoteDigest(r, d) == RemoteDigest(s, d) ==> Writes(Changes(r, d)) == Writes(Changes(s, d))
  }

  lemma ThemeIdTells(theme: Fields)
    ensures var id := Get(theme, "themeId");
      ThemeId(Some(theme)).Ok? <==> id.Missing? || (id.Str? && !Blank(id.s))
  {
  }

  lemma BadIdNeverMatches(remote: Fields, desired: Fields)
    requires Document(remote) && Document(desired)
    requires ThemeId(Some(remote)).Ok? && ThemeId(Some(desired)).Err?
    ensures !DeepEqual(Obj(Project(remote, desired)), Obj(desired))
  {
    hide Whole, ThemeId, Project, Valid, DeepEqual, Blank, Keys;
    var key := "themeId";
    ThemeIdTells(remote);
    ThemeIdTells(desired);
    GetKey(desired, key);
    var i :| 0 <= i < |desired| && desired[i] == Member(key, Get(desired, key));
    ProjectAt(remote, desired);
    ProjectValid(remote, desired);
    ValidFields(desired);
    ValidFields(Project(remote, desired));
    PlaceByPlace(Project(remote, desired), desired);
    IdsDiffer(Get(remote, key), desired[i].value);
  }

  lemma IdsDiffer(remote: Json, desired: Json)
    requires remote.Missing? || (remote.Str? && !Blank(remote.s))
    requires !desired.Missing? && (desired.Str? ==> Blank(desired.s))
    ensures !DeepEqual(ProjectValue(remote, desired), desired)
  {
  }

  lemma ThemeWritesAlike(r: Remote, s: Remote, d: Loaded)
    requires Accepted(r) && Accepted(s) && LoadedOk(d) && LookAlike(r, s, d)
    requires !Exposed(d)
    ensures Writes(ThemeChanges(r, d)) == Writes(ThemeChanges(s, d))
  {
    hide DeepEqual, UsesMarker, Project, ManagedAlike, Valid, Whole, ThemeId;
    if r.theme.Some? {
      if UsesMarker(d.theme) {
        BadIdNeverMatches(r.theme.value, d.theme);
        BadIdNeverMatches(s.theme.value, d.theme);
      } else {
        ManagedMatchesAlike(r.theme.value, s.theme.value, d.theme);
      }
    }
  }

  /** Unless the files are exposed, equal digests mean equal writes, whatever the remotes hold. */
  lemma PreviewHolds(r: Remote, s: Remote, d: Loaded)
    requires Accepted(r) && Accepted(s) && LoadedOk(d) && !Exposed(d)
    ensures SameDigestSameWrites(r, s, d)
  {
    hide RemoteDigest, DeepEqual, UsesMarker, Project, ManagedAlike, Valid, Whole, PromptText, PromptChanges, ThemeId;
    DigestTellsRemotes(r, s, d);
    if RemoteDigest(r, d) == RemoteDigest(s, d) {
      ThemeWritesAlike(r, s, d);
      TenantUsesNoMarker(d.tenant);
      ManagedMatchesAlike(r.tenant, s.tenant, d.tenant);
      PromptWritesAlike(r, s, d, |d.prompts|);
      var n := |d.prompts|;
      WritesConcat(ThemeChanges(r, d) + TenantChanges(r, d), PromptChanges(r, d, n));
      WritesConcat(ThemeChanges(s, d) + TenantChanges(s, d), PromptChanges(s, d, n));
      WritesConcat(ThemeChanges(r, d), TenantChanges(r, d));
      WritesConcat(ThemeChanges(s, d), TenantChanges(s, d));
    }
  }

  // ---------- exposed files: a remote that lacks what the marker stands for ----------

  function Strip(fs: Fields): Fields {
    if fs == [] then [] else
      (if fs[0].value == MARKER then [] else [Member(fs[0].key, StripValue(fs[0].value))]) + Strip(fs[1..])
  }

  function StripValue(v: Json): Json { if v.Obj? then Obj(Strip(v.fields)) else v }

  lemma {:induction false} StripKeys(fs: Fields)
    ensures Keys(Strip(fs)) <= Keys(fs)
  {
    hide StripValue;
    if fs != [] {
      StripKeys(fs[1..]);
      KeysSplit(fs);
      if fs[0].value != MARKER {
        KeysSplit(Strip(fs));
        assert Strip(fs)[1..] == Strip(fs[1..]);
      } else {
        assert Strip(fs) == Strip(fs[1..]);
      }
    }
  }

  lemma {:induction false} StripGet(fs: Fields, key: string)
    requires DistinctKeys(fs)
    ensures Get(Strip(fs), key) == if Get(fs, key) == MARKER then Missing else StripValue(Get(fs, key))
  {
    hide StripValue;
    if fs == [] {
      assert StripValue(Missing) == Missing by { StripLeaf(Missing); }
    } else {
      StripGet(fs[1..], key);
      StripKeys(fs[1..]);
      if fs[0].value == MARKER {
        assert Strip(fs) == Strip(fs[1..]);
        if fs[0].key == key {
          GetKey(fs[1..], key);
          assert key !in Keys(fs[1..]);
          StripLeaf(Missing);
        }
      } else {
        assert Strip(fs)[1..] == Strip(fs[1..]);
      }
    }
  }

  lemma StripLeaf(v: Json)
    requires !v.Obj?
    ensures StripValue(v) == v
  {
  }

  lemma {:induction false} StripIsDocument(fs: Fields)
    requires Document(fs)
    ensures Document(Strip(fs))
    decreases fs
  {
    if fs != [] {
      var v := fs[0].value;
      StripIsDocument(fs[1..]);
      StripKeys(fs[1..]);
      assert fs == [fs[0]] + fs[1..];
      if v.Obj? { StripIsDocument(v.fields); }
      var rest := Strip(fs[1..]);
      forall i | 0 <= i < |rest| ensures rest[i].key != fs[0].key {
        assert rest[i].key in Keys(rest);
      }
    }
  }

  /** To the files, the stripped remote's text is the text of the files' own tree. */
  lemma {:induction false} StripLooksFull(desired: Fields)
    requires Document(desired)
    ensures PlainFields(Project(Strip(desired), desired)) == desired
    decreases desired
  {
    var fs := Project(Strip(desired), desired);
    ProjectAt(Strip(desired), desired);
    PlainFieldsAt(fs);
    hide Project, PlainFields, Strip;
    forall i | 0 <= i < |desired| ensures Plain(fs[i].value) == desired[i].value {
      var v := desired[i].value;
      GetAt(desired, i);
      StripGet(desired, desired[i].key);
      if v.Obj? {
        if v != MARKER { StripLooksFull(v.fields); }
      } else {
        WholeIsPlain(v);
      }
    }
    SeqAlike(PlainFields(fs), desired);
  }

  lemma {:induction false} StripMisses(desired: Fields)
    requires Document(desired) && UsesMarker(desired)
    ensures !DeepEqual(Obj(Project(Strip(desired), desired)), Obj(desired))
    decreases desired
  {
    var fs := Project(Strip(desired), desired);
    ProjectAt(Strip(desired), desired);
    PlaceByPlace(fs, desired);
    hide Project, Strip;
    var i :| 0 <= i < |desired| && ValueUsesMarker(desired[i].value);
    var v := desired[i].value;
    GetAt(desired, i);
    StripGet(desired, desired[i].key);
    if v != MARKER { StripMisses(v.fields); }
  }

  lemma StripLooksAlike(desired: Fields)
    requires Document(desired)
    ensures ManagedAlike(desired, Strip(desired), desired)
  {
    hide DeepEqual, Project, Strip, Plain;
    ProjectFixesDesired(desired);
    StripLooksFull(desired);
    PlainOfObject(Project(Strip(desired), desired));
    WholeIsPlain(Obj(desired));
    SelfAlike(desired);
  }

  lemma {:induction false} WritesCount(xs: seq<Change>)
    ensures |Writes(xs)| == |xs|
  {
    if xs != [] { WritesCount(xs[1..]); }
  }

  lemma TextsAlike(r: Remote, s: Remote, d: Loaded)
    requires RemoteOk(r) && r.prompts == s.prompts
    ensures forall i :: 0 <= i < |d.prompts| ==>
      DeepEqual(Obj(PromptText(r, d.prompts[i])), Obj(PromptText(s, d.prompts[i])))
  {
    hide DeepEqual, Document;
    EmptyIsDocument();
    forall i | 0 <= i < |d.prompts| { SelfAlike(PromptText(r, d.prompts[i])); }
  }

  lemma {:induction false} PromptChangesAlike(r: Remote, s: Remote, d: Loaded, n: nat)
    requires n <= |d.prompts| && r.prompts == s.prompts
    ensures PromptChanges(r, d, n) == PromptChanges(s, d, n)
  {
    hide DeepEqual;
    if n > 0 { PromptChangesAlike(r, s, d, n - 1); }
  }

  lemma ProjectFixes(desired: Fields)
    requires Document(desired)
    ensures DeepEqual(Obj(Project(desired, desired)), Obj(desired))
  {
    ProjectFixesDesired(desired);
    SelfAlike(desired);
  }

  /** Two remotes with one digest of which `apply` would write the theme to the second only. */
  lemma ThemePreviewBreaks(d: Loaded) returns (r: Remote, s: Remote)
    requires LoadedOk(d) && Exposed(d)
    ensures Accepted(r) && Accepted(s) && !SameDigestSameWrites(r, s, d)
  {
    r, s := Remote(Some(d.theme), d.tenant, map[]), Remote(Some(Strip(d.theme)), d.tenant, map[]);
    StripKeepsId(d.theme);
    hide RemoteDigest, DeepEqual, UsesMarker, Project, ManagedAlike, Document, PromptText, PromptChanges, Strip, ThemeId;
    StripIsDocument(d.theme);
    StripLooksAlike(d.theme);
    StripMisses(d.theme);
    ProjectFixes(d.theme);
    SelfManaged(d.tenant);
    TextsAlike(r, s, d);
    DigestTellsRemotes(r, s, d);
    PromptChangesAlike(r, s, d, |d.prompts|);
    WritesCount(Changes(r, d));
    WritesCount(Changes(s, d));
  }

  lemma SelfManaged(desired: Fields)
    requires Document(desired)
    ensures ManagedAlike(desired, desired, desired)
  {
    ProjectFixesDesired(desired);
    WholeIsPlain(Obj(desired));
    SelfAlike(desired);
  }

  lemma StripKeepsId(theme: Fields)
    requires Document(theme) && ThemeId(Some(theme)).Ok?
    ensures ThemeId(Some(Strip(theme))) == ThemeId(Some(theme))
  {
    StripGet(theme, "themeId");
  }

  /** Equal digests promise equal writes exactly when the files are not exposed. */
  lemma PreviewHoldsExactly(d: Loaded)
    requires LoadedOk(d)
    ensures (forall r, s :: Accepted(r) && Accepted(s) ==> SameDigestSameWrites(r, s, d)) <==> !Exposed(d)
  {
    hide SameDigestSameWrites, Accepted, UsesMarker, ThemeId;
    if Exposed(d) {
      var r, s := ThemePreviewBreaks(d);
    } else {
      forall r, s | Accepted(r) && Accepted(s) ensures SameDigestSameWrites(r, s, d) { PreviewHolds(r, s, d); }
    }
  }
}
