/** Universal Login branding: what is managed, what is to change, and when a readback matches. */
module Branding {
  import opened Prelude
  import opened JsonTree
  import opened JsonCanonical
  import opened JsonSorted

  datatype Prompt = Prompt(prompt: string, language: string, text: Fields)

  /** The branding files of one stage, as loaded. */
  datatype Loaded = Loaded(theme: Fields, tenant: Fields, prompts: seq<Prompt>)

  /** The Auth0 side; a prompt that was never written reads as an empty object. */
  datatype Remote = Remote(theme: Option<Fields>, tenant: Fields, prompts: map<string, Fields>)

  datatype Change =
    | ThemeChange(id: Option<string>, themeBefore: Option<Fields>, after: Fields)
    | TenantChange(before: Fields, after: Fields)
    | PromptChange(prompt: string, language: string, before: Fields, after: Fields)

  function PromptKey(prompt: string, language: string): string { prompt + "/" + language }

  function Resource(c: Change): string {
    match c
    case ThemeChange(_, _, _) => "theme"
    case TenantChange(_, _) => "tenant"
    case PromptChange(p, l, _, _) => "prompt:" + PromptKey(p, l)
  }

  /** A JSON object a server or a file can hold. */
  predicate Document(fs: Fields) { Valid(Obj(fs)) && Whole(Obj(fs)) }

  predicate Alphanumeric(c: char) { 'a' <= c <= 'z' || 'A' <= c <= 'Z' || '0' <= c <= '9' }

  /** A prompt or language name: letters, digits, `_` and `-`, the first one a letter or digit. */
  predicate PromptPart(s: string) {
    s != [] && Alphanumeric(s[0]) && forall i :: 0 <= i < |s| ==> Alphanumeric(s[i]) || s[i] in {'_', '-'}
  }

  /** What the theme file must hold, whatever else it declares. */
  predicate ThemeShape(theme: Fields) {
    && Get(theme, "colors").Obj? && Get(theme, "fonts").Obj? && Get(theme, "widget").Obj?
    && Get(Get(theme, "widget").fields, "logo_url").Str?
    && (Get(Get(theme, "fonts").fields, "font_url").Missing? || Get(Get(theme, "fonts").fields, "font_url").Str?)
  }

  /** The tenant file manages one picture. */
  predicate TenantShape(tenant: Fields) {
    |tenant| == 1 && tenant[0].key == "picture_url" && tenant[0].value.Str?
  }

  /** What the loader lets through. */
  predicate LoadedOk(d: Loaded) {
    && Document(d.theme) && Document(d.tenant) && ThemeShape(d.theme) && TenantShape(d.tenant)
    && d.prompts != []
    && (forall i :: 0 <= i < |d.prompts| ==>
      Document(d.prompts[i].text) && PromptPart(d.prompts[i].prompt) && PromptPart(d.prompts[i].language))
    && (forall i, j :: 0 <= i < j < |d.prompts| ==>
      d.prompts[i].prompt != d.prompts[j].prompt || d.prompts[i].language != d.prompts[j].language)
  }

  predicate RemoteOk(r: Remote) {
    && (r.theme.Some? ==> Document(r.theme.value))
    && Document(r.tenant)
    && forall k :: k in r.prompts ==> Document(r.prompts[k])
  }

  // ---------- the managed part ----------

  /** `projectManaged`: the remote values of the fields the files declare. */
  function Project(remote: Fields, desired: Fields): Fields
    decreases desired
  {
    if desired == [] then [] else
      [Member(desired[0].key, ProjectValue(Get(remote, desired[0].key), desired[0].value))]
      + Project(remote, desired[1..])
  }

  function ProjectValue(remote: Json, desired: Json): Json
    decreases desired
  {
    if desired.Obj? && remote.Obj? then Obj(Project(remote.fields, desired.fields)) else remote
  }

  const SPACES := {' ', '\t', '\n', '\r', 11 as char, 12 as char, 0xA0 as char, 0x1680 as char, 0x2028 as char,
                   0x2029 as char, 0x202F as char, 0x205F as char, 0x3000 as char, 0xFEFF as char}

  predicate Blank(s: string) {
    forall i :: 0 <= i < |s| ==> s[i] in SPACES || 0x2000 <= s[i] as int <= 0x200A
  }

  /** The id of the default theme; a theme with an id that is no text, or blank, is refused. */
  function ThemeId(theme: Option<Fields>): Result<Option<string>, string> {
    match theme
    case None => Ok(None)
    case Some(fs) =>
      match Get(fs, "themeId")
      case Missing => Ok(None)
      case Str(s) => if Blank(s) then Err("Auth0 returned a default theme without a themeId") else Ok(Some(s))
      case _ => Err("Auth0 returned a default theme without a themeId")
  }

  function ManagedTheme(theme: Option<Fields>, desired: Fields): Option<Fields> {
    match theme
    case None => None
    case Some(fs) => Some(Project(fs, desired))
  }

  function PromptText(r: Remote, p: Prompt): Fields {
    var key := PromptKey(p.prompt, p.language);
    if key in r.prompts then r.prompts[key] else []
  }

  // ---------- what is to change ----------

  function ThemeChanges(r: Remote, d: Loaded): seq<Change>
    requires ThemeId(r.theme).Ok?
  {
    var managed := ManagedTheme(r.theme, d.theme);
    if managed.None? || !DeepEqual(Obj(managed.value), Obj(d.theme))
    then [ThemeChange(ThemeId(r.theme).value, managed, d.theme)] else []
  }

  function TenantChanges(r: Remote, d: Loaded): seq<Change> {
    var managed := Project(r.tenant, d.tenant);
    if DeepEqual(Obj(managed), Obj(d.tenant)) then [] else [TenantChange(managed, d.tenant)]
  }

  /** The change for one prompt, if it needs one. */
  function PromptStep(r: Remote, p: Prompt): seq<Change> {
    var before := PromptText(r, p);
    if DeepEqual(Obj(before), Obj(p.text)) then [] else [PromptChange(p.prompt, p.language, before, p.text)]
  }

  function PromptChanges(r: Remote, d: Loaded, n: nat): seq<Change>
    requires n <= |d.prompts|
  {
    if n == 0 then [] else PromptChanges(r, d, n - 1) + PromptStep(r, d.prompts[n - 1])
  }

  function Changes(r: Remote, d: Loaded): seq<Change>
    requires ThemeId(r.theme).Ok?
  {
    ThemeChanges(r, d) + TenantChanges(r, d) + PromptChanges(r, d, |d.prompts|)
  }

  // ---------- readback ----------

  /** The resource a change is about, as it is read back. */
  function Current(r: Remote, c: Change): Option<Fields> {
    match c
    case ThemeChange(_, _, _) => r.theme
    case TenantChange(_, _) => Some(r.tenant)
    case PromptChange(p, l, _, _) => Some(PromptText(r, Prompt(p, l, [])))
  }

  /** The resource holds what the change asks for. */
  predicate Matches(c: Change, readback: Option<Fields>) {
    && readback.Some?
    && if c.PromptChange? then DeepEqual(Obj(readback.value), Obj(c.after))
       else DeepEqual(Obj(Project(readback.value, c.after)), Obj(c.after))
  }

  /** The resource holds what it held when the change was planned. */
  predicate MatchesBefore(c: Change, readback: Option<Fields>) {
    match c
    case ThemeChange(_, before, after) =>
      || (before.None? && readback.None?)
      || (before.Some? && readback.Some? && DeepEqual(Obj(Project(readback.value, after)), Obj(before.value)))
    case TenantChange(before, after) =>
      readback.Some? && DeepEqual(Obj(Project(readback.value, after)), Obj(before))
    case PromptChange(_, _, before, _) => readback.Some? && DeepEqual(Obj(readback.value), Obj(before))
  }

  // ---------- deep equality is an equivalence ----------

  lemma DeepEquivalence(a: Json, b: Json, c: Json)
    requires Valid(a) && Valid(b) && Valid(c)
    ensures DeepEqual(a, a)
    ensures DeepEqual(a, b) <==> DeepEqual(b, a)
    ensures DeepEqual(a, b) && DeepEqual(b, c) ==> DeepEqual(a, c)
  {
    hide DeepEqual, Norm, Valid;
    DeepEqualIsSameNorm(a, a);
    DeepEqualIsSameNorm(a, b);
    DeepEqualIsSameNorm(b, a);
    DeepEqualIsSameNorm(b, c);
    DeepEqualIsSameNorm(a, c);
  }

  // ---------- projection ----------

  lemma {:induction false} ProjectAt(remote: Fields, desired: Fields)
    ensures |Project(remote, desired)| == |desired|
    ensures forall i :: 0 <= i < |desired| ==>
      Project(remote, desired)[i] == Member(desired[i].key, ProjectValue(Get(remote, desired[i].key), desired[i].value))
  {
    hide ProjectValue;
    if desired != [] { ProjectAt(remote, desired[1..]); }
  }

  lemma GetAt(fs: Fields, i: nat)
    requires DistinctKeys(fs) && i < |fs|
    ensures Get(fs, fs[i].key) == fs[i].value
  {
    GetMember(fs, fs[i]);
  }

  lemma {:induction false} ProjectValid(remote: Fields, desired: Fields)
    requires Valid(Obj(remote)) && Valid(Obj(desired))
    ensures Valid(Obj(Project(remote, desired)))
    decreases desired
  {
    ProjectAt(remote, desired);
    forall i | 0 <= i < |desired| ensures Valid(ProjectValue(Get(remote, desired[i].key), desired[i].value)) {
      var v, rv := desired[i].value, Get(remote, desired[i].key);
      GetKey(remote, desired[i].key);
      assert Valid(rv);
      if v.Obj? && rv.Obj? { ProjectValid(rv.fields, v.fields); }
    }
  }

  /** Projecting twice is projecting once. */
  lemma {:induction false} ProjectIsIdempotent(remote: Fields, desired: Fields)
    requires Valid(Obj(desired))
    ensures Project(Project(remote, desired), desired) == Project(remote, desired)
    decreases desired
  {
    var once := Project(remote, desired);
    ProjectAt(remote, desired);
    ProjectAt(once, desired);
    hide DeepEqual;
    forall i | 0 <= i < |desired| ensures Project(once, desired)[i] == once[i] {
      GetAt(once, i);
      var v, rv := desired[i].value, Get(remote, desired[i].key);
      if v.Obj? && rv.Obj? { ProjectIsIdempotent(rv.fields, v.fields); }
    }
    SeqAlike(Project(once, desired), once);
  }

  /** The files' own tree is all managed. */
  lemma {:induction false} ProjectFixesDesired(desired: Fields)
    requires Valid(Obj(desired))
    ensures Project(desired, desired) == desired
    decreases desired
  {
    ProjectAt(desired, desired);
    forall i | 0 <= i < |desired| ensures Project(desired, desired)[i] == desired[i] {
      GetAt(desired, i);
      if desired[i].value.Obj? { ProjectFixesDesired(desired[i].value.fields); }
    }
    SeqAlike(Project(desired, desired), desired);
  }

  /** How a server may combine what it holds with what it is sent. */
  datatype Merging = Replacing | Shallow | Deep

  function Without(fs: Fields, keys: set<string>): Fields {
    if fs == [] then [] else (if fs[0].key in keys then [] else [fs[0]]) + Without(fs[1..], keys)
  }

  function Merge(how: Merging, remote: Fields, desired: Fields): Fields {
    match how
    case Replacing => desired
    case Shallow => Without(remote, Keys(desired)) + desired
    case Deep => DeepMerge(remote, desired)
  }

  function DeepMerge(remote: Fields, desired: Fields): Fields
    decreases desired, 1
  {
    Without(remote, Keys(desired)) + DeepMerged(remote, desired)
  }

  function DeepMerged(remote: Fields, desired: Fields): Fields
    decreases desired, 0
  {
    if desired == [] then [] else
      var v, rv := desired[0].value, Get(remote, desired[0].key);
      [Member(desired[0].key, if v.Obj? && rv.Obj? then Obj(DeepMerge(rv.fields, v.fields)) else v)]
      + DeepMerged(remote, desired[1..])
  }

  lemma {:induction false} DeepMergedAt(remote: Fields, desired: Fields)
    ensures |DeepMerged(remote, desired)| == |desired|
    ensures forall i :: 0 <= i < |desired| ==>
      var v, rv := desired[i].value, Get(remote, desired[i].key);
      DeepMerged(remote, desired)[i]
        == Member(desired[i].key, if v.Obj? && rv.Obj? then Obj(DeepMerge(rv.fields, v.fields)) else v)
  {
    hide DeepMerge;
    if desired != [] { DeepMergedAt(remote, desired[1..]); }
  }

  lemma {:induction false} GetPastOthers(remote: Fields, keys: set<string>, fs: Fields, key: string)
    requires key in keys
    ensures Get(Without(remote, keys) + fs, key) == Get(fs, key)
  {
    hide Get;
    if remote == [] {
      assert Without(remote, keys) + fs == fs;
    } else {
      GetPastOthers(remote[1..], keys, fs, key);
      var rest := Without(remote[1..], keys);
      if remote[0].key in keys {
        assert Without(remote, keys) == rest;
      } else {
        GetPastOne(remote[0], rest + fs, key);
        assert Without(remote, keys) + fs == [remote[0]] + (rest + fs);
      }
    }
  }

  lemma GetPastOne(m: Member<Json>, fs: Fields, key: string)
    requires m.key != key
    ensures Get([m] + fs, key) == Get(fs, key)
  {
    assert ([m] + fs)[1..] == fs;
  }

  /** However the server merges what it is sent, its managed part is then what was sent. */
  lemma ProjectRecoversDesired(how: Merging, remote: Fields, desired: Fields)
    requires Valid(Obj(desired))
    ensures Project(Merge(how, remote, desired), desired) == desired
  {
    match how
    case Replacing => ProjectFixesDesired(desired);
    case Shallow =>
      var merged := Merge(how, remote, desired);
      ProjectAt(merged, desired);
      ProjectAt(desired, desired);
      ProjectFixesDesired(desired);
      forall i | 0 <= i < |desired| ensures Project(merged, desired)[i] == desired[i] {
        GetPastOthers(remote, Keys(desired), desired, desired[i].key);
      }
      SeqAlike(Project(merged, desired), desired);
    case Deep => ProjectRecoversFromDeep(remote, desired);
  }

  lemma {:induction false} ProjectRecoversFromDeep(remote: Fields, desired: Fields)
    requires Valid(Obj(desired))
    ensures Project(DeepMerge(remote, desired), desired) == desired
    decreases desired
  {
    var fs, merged := DeepMerged(remote, desired), DeepMerge(remote, desired);
    ProjectAt(merged, desired);
    DeepMergedAt(remote, desired);
    hide DeepMerged, DeepEqual, Project, Without;
    forall i | 0 <= i < |desired| ensures Project(merged, desired)[i] == desired[i] {
      GetPastOthers(remote, Keys(desired), fs, desired[i].key);
      GetAt(fs, i);
      var v, rv := desired[i].value, Get(remote, desired[i].key);
      if v.Obj? {
        if rv.Obj? { ProjectRecoversFromDeep(rv.fields, v.fields); } else { ProjectFixesDesired(v.fields); }
      }
    }
    SeqAlike(Project(merged, desired), desired);
  }

  // ---------- changes and readbacks ----------

  /** What is planned is planned because the resource does not hold it. */
  ghost predicate Needed(r: Remote, c: Change) {
    && Document(c.after)
    && (c.ThemeChange? ==> c.themeBefore == ManagedTheme(r.theme, c.after))
    && (c.TenantChange? ==> c.before == Project(r.tenant, c.after))
    && (c.PromptChange? ==> Current(r, c) == Some(c.before))
    && MatchesBefore(c, Current(r, c)) && !Matches(c, Current(r, c))
  }

  lemma {:induction false} PromptChangesNeeded(r: Remote, d: Loaded, n: nat)
    requires RemoteOk(r) && LoadedOk(d) && n <= |d.prompts|
    ensures forall i :: 0 <= i < |PromptChanges(r, d, n)| ==>
      PromptChanges(r, d, n)[i].PromptChange? && Needed(r, PromptChanges(r, d, n)[i])
  {
    hide DeepEqual, Document;
    if n > 0 {
      PromptChangesNeeded(r, d, n - 1);
      EmptyIsDocument();
      SelfAlike(PromptText(r, d.prompts[n - 1]));
    }
  }

  lemma EmptyIsDocument()
    ensures Document([])
  {
  }

  lemma SelfAlike(fs: Fields)
    requires Document(fs)
    ensures DeepEqual(Obj(fs), Obj(fs))
  {
    DeepEquivalence(Obj(fs), Obj(fs), Obj(fs));
  }

  lemma ManagedAlike(remote: Fields, desired: Fields)
    requires Document(remote) && Document(desired)
    ensures DeepEqual(Obj(Project(remote, desired)), Obj(Project(remote, desired)))
  {
    ProjectValid(remote, desired);
    DeepEquivalence(Obj(Project(remote, desired)), Obj(Project(remote, desired)), Obj(desired));
  }

  /** Every planned change is needed: its resource reads as before it, and not as after it. */
  lemma ChangesAreNeeded(r: Remote, d: Loaded)
    requires RemoteOk(r) && LoadedOk(d) && ThemeId(r.theme).Ok?
    ensures forall i :: 0 <= i < |Changes(r, d)| ==> Needed(r, Changes(r, d)[i])
  {
    hide DeepEqual, Document, Project, PromptChanges;
    if r.theme.Some? { ManagedAlike(r.theme.value, d.theme); }
    ManagedAlike(r.tenant, d.tenant);
    PromptChangesNeeded(r, d, |d.prompts|);
  }

  /** No readback matches both sides of a planned change. */
  lemma NeverBothSides(r: Remote, c: Change, readback: Option<Fields>)
    requires RemoteOk(r) && Needed(r, c) && (readback.Some? ==> Document(readback.value))
    ensures !(Matches(c, readback) && MatchesBefore(c, readback))
  {
    hide DeepEqual, Valid, Project, Whole;
    if Matches(c, readback) && MatchesBefore(c, readback) {
      var rb := readback.value;
      ProjectValid(rb, c.after);
      var after := Obj(c.after);
      match c
      case ThemeChange(_, before, _) =>
        ProjectValid(r.theme.value, c.after);
        DeepEquivalence(Obj(before.value), Obj(Project(rb, c.after)), after);
      case TenantChange(before, _) =>
        ProjectValid(r.tenant, c.after);
        DeepEquivalence(Obj(before), Obj(Project(rb, c.after)), after);
      case PromptChange(_, _, before, _) =>
        EmptyIsDocument();
        DeepEquivalence(Obj(before), Obj(rb), after);
    }
  }

  // ---------- the state the files ask for ----------

  predicate ThemeHeld(theme: Option<Fields>, d: Loaded) {
    theme.Some? && DeepEqual(Obj(Project(theme.value, d.theme)), Obj(d.theme))
  }

  predicate TenantHeld(tenant: Fields, d: Loaded) { DeepEqual(Obj(Project(tenant, d.tenant)), Obj(d.tenant)) }

  /** A prompt is compared whole; one that was never written is empty. */
  predicate PromptHeld(prompts: map<string, Fields>, p: Prompt) {
    var key := p.prompt + "/" + p.language;
    DeepEqual(Obj(if key in prompts then prompts[key] else []), Obj(p.text))
  }

  /** The theme, the tenant and every prompt hold what the files declare. */
  predicate InState(r: Remote, d: Loaded) {
    && ThemeHeld(r.theme, d) && TenantHeld(r.tenant, d)
    && forall k :: 0 <= k < |d.prompts| ==> PromptHeld(r.prompts, d.prompts[k])
  }

  /** The change that writes this prompt's text. */
  predicate WritesPrompt(c: Change, p: Prompt) {
    c.PromptChange? && c.prompt == p.prompt && c.language == p.language && c.after == p.text
  }

  predicate PlansPrompt(cs: seq<Change>, p: Prompt) { exists c :: c in cs && WritesPrompt(c, p) }

  predicate PlansTheme(cs: seq<Change>, d: Loaded) { exists c :: c in cs && c.ThemeChange? && c.after == d.theme }

  predicate PlansTenant(cs: seq<Change>, d: Loaded) { exists c :: c in cs && c.TenantChange? && c.after == d.tenant }

  predicate OnlyPrompts(cs: seq<Change>, d: Loaded, n: nat)
    requires n <= |d.prompts|
  {
    forall c :: c in cs ==> exists k :: 0 <= k < n && WritesPrompt(c, d.prompts[k])
  }

  lemma PlansBoth(a: seq<Change>, b: seq<Change>, d: Loaded)
    ensures PlansTheme(a + b, d) <==> PlansTheme(a, d) || PlansTheme(b, d)
    ensures PlansTenant(a + b, d) <==> PlansTenant(a, d) || PlansTenant(b, d)
    ensures forall p :: PlansPrompt(a + b, p) <==> PlansPrompt(a, p) || PlansPrompt(b, p)
  {
    hide WritesPrompt;
    assert forall c :: c in a + b <==> c in a || c in b;
  }

  lemma StepPlans(r: Remote, p: Prompt, q: Prompt)
    ensures PlansPrompt(PromptStep(r, p), q) ==>
      q.prompt == p.prompt && q.language == p.language && q.text == p.text && !PromptHeld(r.prompts, p)
    ensures PlansPrompt(PromptStep(r, p), p) <==> !PromptHeld(r.prompts, p)
    ensures forall c :: c in PromptStep(r, p) ==> WritesPrompt(c, p)
  {
    hide DeepEqual;
    if !PromptHeld(r.prompts, p) { assert WritesPrompt(PromptStep(r, p)[0], p); }
  }

  lemma {:induction false} PromptChangesOnly(r: Remote, d: Loaded, n: nat)
    requires n <= |d.prompts|
    ensures OnlyPrompts(PromptChanges(r, d, n), d, n)
  {
    hide PromptStep, WritesPrompt;
    if n > 0 {
      PromptChangesOnly(r, d, n - 1);
      StepPlans(r, d.prompts[n - 1], d.prompts[n - 1]);
    }
  }

  lemma {:induction false} PromptChangesAre(r: Remote, d: Loaded, n: nat, k: nat)
    requires LoadedOk(d) && n <= |d.prompts| && k < |d.prompts|
    ensures PlansPrompt(PromptChanges(r, d, n), d.prompts[k]) <==> k < n && !PromptHeld(r.prompts, d.prompts[k])
  {
    if n > 0 {
      PromptChangesAre(r, d, n - 1, k);
      var p, q := d.prompts[k], d.prompts[n - 1];
      assert k != n - 1 ==> p.prompt != q.prompt || p.language != q.language;
      hide PromptStep, PlansPrompt, PromptHeld, LoadedOk;
      StepPlans(r, d.prompts[n - 1], d.prompts[k]);
      PlansBoth(PromptChanges(r, d, n - 1), PromptStep(r, d.prompts[n - 1]), d);
    } else {
      assert !PlansPrompt([], d.prompts[k]);
    }
  }

  lemma ThemePlans(r: Remote, d: Loaded)
    requires ThemeId(r.theme).Ok?
    ensures var cs := ThemeChanges(r, d);
      (PlansTheme(cs, d) <==> !ThemeHeld(r.theme, d)) && !PlansTenant(cs, d) && forall p :: !PlansPrompt(cs, p)
  {
    hide ThemeId, DeepEqual, Project;
    if !ThemeHeld(r.theme, d) { assert ThemeChanges(r, d)[0] in ThemeChanges(r, d); }
  }

  lemma TenantPlans(r: Remote, d: Loaded)
    ensures var cs := TenantChanges(r, d);
      (PlansTenant(cs, d) <==> !TenantHeld(r.tenant, d)) && !PlansTheme(cs, d) && forall p :: !PlansPrompt(cs, p)
  {
    hide DeepEqual, Project;
    if !TenantHeld(r.tenant, d) { assert TenantChanges(r, d)[0] in TenantChanges(r, d); }
  }

  lemma PromptPlans(r: Remote, d: Loaded)
    ensures var cs := PromptChanges(r, d, |d.prompts|); !PlansTheme(cs, d) && !PlansTenant(cs, d)
  {
    PromptChangesOnly(r, d, |d.prompts|);
    hide PromptChanges;
  }

  /** A resource is planned exactly when it does not hold what the files declare. */
  predicate Complete(cs: seq<Change>, r: Remote, d: Loaded) {
    && (PlansTheme(cs, d) <==> !ThemeHeld(r.theme, d))
    && (PlansTenant(cs, d) <==> !TenantHeld(r.tenant, d))
    && forall k :: 0 <= k < |d.prompts| ==> (PlansPrompt(cs, d.prompts[k]) <==> !PromptHeld(r.prompts, d.prompts[k]))
  }

  lemma ChangesAreComplete(r: Remote, d: Loaded)
    requires LoadedOk(d) && ThemeId(r.theme).Ok?
    ensures Complete(Changes(r, d), r, d)
  {
    hide ThemeChanges, TenantChanges, PromptChanges, PromptHeld, ThemeHeld, TenantHeld, LoadedOk, ThemeId,
      PlansTheme, PlansTenant, PlansPrompt;
    var a, b, c := ThemeChanges(r, d), TenantChanges(r, d), PromptChanges(r, d, |d.prompts|);
    ThemePlans(r, d);
    TenantPlans(r, d);
    PromptPlans(r, d);
    forall k | 0 <= k < |d.prompts| ensures PlansPrompt(c, d.prompts[k]) <==> !PromptHeld(r.prompts, d.prompts[k]) {
      PromptChangesAre(r, d, |d.prompts|, k);
    }
    PlansBoth(a, b, d);
    PlansBoth(a + b, c, d);
  }

  /** So there is nothing to change exactly when everything is as the files say. */
  lemma NoChangesExactly(r: Remote, d: Loaded)
    requires LoadedOk(d) && ThemeId(r.theme).Ok?
    ensures Changes(r, d) == [] <==> InState(r, d)
  {
    ChangesAreComplete(r, d);
    hide ThemeHeld, TenantHeld, PromptHeld, LoadedOk, ThemeId, PromptChanges, Changes;
    if InState(r, d) && Changes(r, d) != [] { OnlyThese(r, d, Changes(r, d)[0]); }
  }

  lemma OnlyThese(r: Remote, d: Loaded, c: Change)
    requires ThemeId(r.theme).Ok? && c in Changes(r, d)
    ensures PlansTheme(Changes(r, d), d) || PlansTenant(Changes(r, d), d)
      || exists k :: 0 <= k < |d.prompts| && PlansPrompt(Changes(r, d), d.prompts[k])
  {
    PromptChangesOnly(r, d, |d.prompts|);
    hide PromptChanges, ThemeId, DeepEqual, WritesPrompt;
    if c in PromptChanges(r, d, |d.prompts|) {
      var k :| 0 <= k < |d.prompts| && WritesPrompt(c, d.prompts[k]);
      assert PlansPrompt(Changes(r, d), d.prompts[k]);
    }
  }

  /** A theme is created when there is none with an id, and otherwise updated under its id. */
  lemma ThemeChangeId(r: Remote, d: Loaded, c: Change)
    requires ThemeId(r.theme).Ok? && c in Changes(r, d) && c.ThemeChange?
    ensures c.id.None? <==> r.theme.None? || Get(r.theme.value, "themeId") == Missing
    ensures c.id.Some? ==> r.theme.Some? && Get(r.theme.value, "themeId") == Str(c.id.value) && !Blank(c.id.value)
  {
    PromptChangesOnly(r, d, |d.prompts|);
    hide PromptChanges, DeepEqual, Get, Blank;
  }
}
