/** How the branding files are read, and that files the reader accepts can be exposed. */
module BrandingSource {
  import opened Prelude
  import opened JsonTree
  import opened JsonCanonical
  import opened JsonSorted
  import opened JsonDigest
  import opened Branding
  import opened BrandingPreview

  // ---------- reading ----------

  predicate IsComment(key: string) { key != [] && key[0] == '_' }

  /** `withoutComments`: drops every field whose key begins with an underscore. */
  function WithoutComments(j: Json): Json {
    match j
    case Arr(items) => Arr(WithoutItems(items))
    case Obj(fs) => Obj(WithoutFields(fs))
    case _ => j
  }

  function WithoutItems(items: seq<Json>): seq<Json> {
    if items == [] then [] else [WithoutComments(items[0])] + WithoutItems(items[1..])
  }

  function WithoutFields(fs: Fields): Fields {
    if fs == [] then [] else
      (if IsComment(fs[0].key) then [] else [Member(fs[0].key, WithoutComments(fs[0].value))]) + WithoutFields(fs[1..])
  }

  /** `{ ...object, key: value }`. */
  function With(fs: Fields, key: string, value: Json): Fields {
    if fs == [] then [Member(key, value)]
    else if fs[0].key == key then [Member(key, value)] + fs[1..]
    else [fs[0]] + With(fs[1..], key, value)
  }

  /** `href` resolves a path against the stack's origin, and gives None for one that leaves it. */
  function RelativeAsset(v: Json, href: string -> Option<string>): Option<string> {
    if v.Str? && "/auth0/" <= v.s then href(v.s) else None
  }

  function PrepareTheme(raw: Fields, href: string -> Option<string>): Option<Fields> {
    var theme := WithoutFields(raw);
    var fonts, widget := Get(theme, "fonts"), Get(theme, "widget");
    if !Get(theme, "colors").Obj? || !fonts.Obj? || !widget.Obj? then None
    else
      var logo := RelativeAsset(Get(widget.fields, "logo_url"), href);
      if logo.None? then None
      else
        var branded := With(theme, "widget", Obj(With(widget.fields, "logo_url", Str(logo.value))));
        if Get(fonts.fields, "font_url").Missing? then Some(branded)
        else
          var font := RelativeAsset(Get(fonts.fields, "font_url"), href);
          if font.None? then None
          else Some(With(branded, "fonts", Obj(With(fonts.fields, "font_url", Str(font.value)))))
  }

  function PrepareTenant(raw: Fields, href: string -> Option<string>): Option<Fields> {
    var tenant := WithoutFields(raw);
    if exists i :: 0 <= i < |tenant| && tenant[i].key != "picture_url" then None
    else
      match RelativeAsset(Get(tenant, "picture_url"), href)
      case None => None
      case Some(picture) => Some([Member("picture_url", Str(picture))])
  }

  predicate TextOk(fs: Fields) {
    fs != [] && forall i :: 0 <= i < |fs| ==> !Blank(fs[i].key) && fs[i].value.Str? && !Blank(fs[i].value.s)
  }

  /** `validatePromptText`. */
  predicate PromptTextOk(fs: Fields) {
    fs != [] && forall i :: 0 <= i < |fs| ==> !Blank(fs[i].key) && fs[i].value.Obj? && TextOk(fs[i].value.fields)
  }

  /** The prompt documents, in the order they are listed. */
  function LoadPrompts(raw: seq<Prompt>): Option<seq<Prompt>> {
    if raw == [] then Some([]) else
      var p, rest := raw[0], LoadPrompts(raw[1..]);
      var text := WithoutFields(p.text);
      if !PromptPart(p.prompt) || !PromptPart(p.language) || !PromptTextOk(text) || rest.None? then None
      else Some([Prompt(p.prompt, p.language, text)] + rest.value)
  }

  /** `load`, from the parsed files. */
  function Load(theme: Fields, tenant: Fields, prompts: seq<Prompt>, href: string -> Option<string>): Option<Loaded> {
    var t, n, p := PrepareTheme(theme, href), PrepareTenant(tenant, href), LoadPrompts(prompts);
    if t.None? || n.None? || p.None? || prompts == [] then None else Some(Loaded(t.value, n.value, p.value))
  }

  // ---------- what it lets through ----------

  lemma {:induction false} WithoutItemsAt(items: seq<Json>)
    ensures |WithoutItems(items)| == |items|
    ensures forall i :: 0 <= i < |items| ==> WithoutItems(items)[i] == WithoutComments(items[i])
  {
    hide WithoutComments;
    if items != [] { WithoutItemsAt(items[1..]); }
  }

  lemma {:induction false} WithoutIsDocument(j: Json)
    requires Valid(j) && Whole(j)
    ensures Valid(WithoutComments(j)) && Whole(WithoutComments(j))
    decreases j
  {
    match j
    case Arr(items) =>
      WithoutItemsAt(items);
      forall i | 0 <= i < |items| { WithoutIsDocument(items[i]); }
    case Obj(fs) => WithoutFieldsDocument(fs);
    case _ =>
  }

  lemma {:induction false} WithoutFieldsDocument(fs: Fields)
    requires Document(fs)
    ensures Document(WithoutFields(fs)) && Keys(WithoutFields(fs)) <= Keys(fs)
    decreases fs
  {
    if fs != [] {
      WithoutIsDocument(fs[0].value);
      DocumentTail(fs);
      WithoutFieldsDocument(fs[1..]);
      KeysSplit(fs);
      hide Document, WithoutComments;
      var rest := WithoutFields(fs[1..]);
      if IsComment(fs[0].key) {
        assert WithoutFields(fs) == rest;
      } else {
        var head := Member(fs[0].key, WithoutComments(fs[0].value));
        assert head.key !in Keys(rest);
        DocumentCons(head, rest);
        KeysSplit([head] + rest);
        assert ([head] + rest)[1..] == rest;
      }
    }
  }

  lemma DocumentTail(fs: Fields)
    requires fs != [] && Document(fs)
    ensures Document(fs[1..]) && Valid(fs[0].value) && Whole(fs[0].value) && fs[0].key !in Keys(fs[1..])
  {
  }

  lemma DocumentCons(m: Member<Json>, fs: Fields)
    requires Document(fs) && Valid(m.value) && Whole(m.value) && m.key !in Keys(fs)
    ensures Document([m] + fs)
  {
    assert forall i :: 0 <= i < |fs| ==> fs[i].key in Keys(fs);
  }

  lemma {:induction false} WithGets(fs: Fields, key: string, value: Json)
    ensures Get(With(fs, key, value), key) == value
    ensures forall k :: k != key ==> Get(With(fs, key, value), k) == Get(fs, k)
  {
    if fs != [] && fs[0].key != key { WithGets(fs[1..], key, value); }
  }

  lemma {:induction false} WithKeeps(fs: Fields, key: string, value: Json)
    requires Document(fs) && Valid(value) && Whole(value)
    ensures Document(With(fs, key, value)) && Keys(With(fs, key, value)) == Keys(fs) + {key}
  {
    hide Document, Valid, Whole, Keys;
    if fs == [] {
      OneFieldDocument(Member(key, value));
      KeysOfOne(Member(key, value));
    } else {
      DocumentTail(fs);
      KeysSplit(fs);
      var m := if fs[0].key == key then Member(key, value) else fs[0];
      if fs[0].key != key { WithKeeps(fs[1..], key, value); }
      var rest := if fs[0].key == key then fs[1..] else With(fs[1..], key, value);
      DocumentCons(m, rest);
      KeysSplit([m] + rest);
      assert ([m] + rest)[1..] == rest;
    }
  }

  lemma KeysOfOne<T>(m: Member<T>)
    ensures Keys([m]) == {m.key} && Keys<T>([]) == {}
  {
    assert [m][0].key in Keys([m]);
  }

  lemma GetIsDocument(fs: Fields, key: string)
    requires Document(fs) && Get(fs, key).Obj?
    ensures Document(Get(fs, key).fields)
  {
    GetKey(fs, key);
  }

  /** Setting one text inside an object of the theme keeps everything else of it. */
  lemma NestedWith(theme: Fields, key: string, inner: string, text: string)
    requires Document(theme) && Get(theme, key).Obj?
    ensures var nested := With(Get(theme, key).fields, inner, Str(text));
      var after := With(theme, key, Obj(nested));
      && Document(after) && Get(after, key) == Obj(nested) && Get(nested, inner) == Str(text)
      && forall k :: k != key ==> Get(after, k) == Get(theme, k)
  {
    GetIsDocument(theme, key);
    TextIsDocument(Str(text));
    hide Document, With;
    WithKeeps(Get(theme, key).fields, inner, Str(text));
    WithGets(Get(theme, key).fields, inner, Str(text));
    var nested := With(Get(theme, key).fields, inner, Str(text));
    ObjectIsDocument(Obj(nested));
    WithKeeps(theme, key, Obj(nested));
    WithGets(theme, key, Obj(nested));
  }

  lemma ThemeIsPrepared(raw: Fields, href: string -> Option<string>)
    requires Document(raw) && PrepareTheme(raw, href).Some?
    ensures var theme := PrepareTheme(raw, href).value; Document(theme) && ThemeShape(theme)
  {
    WithoutFieldsDocument(raw);
    hide Document, WithoutFields, With, Get, RelativeAsset, ThemeShape;
    var theme := WithoutFields(raw);
    var fonts, widget := Get(theme, "fonts"), Get(theme, "widget");
    var logo := RelativeAsset(Get(widget.fields, "logo_url"), href).value;
    var branded := With(theme, "widget", Obj(With(widget.fields, "logo_url", Str(logo))));
    if Get(fonts.fields, "font_url").Missing? {
      LogoSet(theme, logo);
    } else {
      var font := RelativeAsset(Get(fonts.fields, "font_url"), href).value;
      FontSet(theme, logo, font);
    }
  }

  predicate ThemeObjects(theme: Fields) {
    Get(theme, "colors").Obj? && Get(theme, "fonts").Obj? && Get(theme, "widget").Obj?
  }

  lemma LogoSet(theme: Fields, logo: string)
    requires Document(theme) && ThemeObjects(theme)
    ensures var branded := With(theme, "widget", Obj(With(Get(theme, "widget").fields, "logo_url", Str(logo))));
      && Document(branded) && ThemeObjects(branded) && Get(branded, "fonts") == Get(theme, "fonts")
      && Get(Get(branded, "widget").fields, "logo_url").Str?
      && (Get(Get(theme, "fonts").fields, "font_url").Missing? ==> ThemeShape(branded))
  {
    hide Document, With, Get;
    NestedWith(theme, "widget", "logo_url", logo);
  }

  lemma FontSet(theme: Fields, logo: string, font: string)
    requires Document(theme) && ThemeObjects(theme)
    ensures var branded := With(theme, "widget", Obj(With(Get(theme, "widget").fields, "logo_url", Str(logo))));
      var after := With(branded, "fonts", Obj(With(Get(theme, "fonts").fields, "font_url", Str(font))));
      Document(after) && ThemeShape(after)
  {
    hide Document, With, Get;
    LogoSet(theme, logo);
    var branded := With(theme, "widget", Obj(With(Get(theme, "widget").fields, "logo_url", Str(logo))));
    NestedWith(branded, "fonts", "font_url", font);
  }

  lemma TextIsDocument(j: Json)
    requires j.Str?
    ensures Valid(j) && Whole(j)
  {
  }

  lemma ObjectIsDocument(j: Json)
    requires j.Obj? && Document(j.fields)
    ensures Valid(j) && Whole(j)
  {
  }

  lemma {:induction false} PromptsAreLoaded(raw: seq<Prompt>)
    requires forall i :: 0 <= i < |raw| ==> Document(raw[i].text)
    requires LoadPrompts(raw).Some?
    ensures var ps := LoadPrompts(raw).value;
      |ps| == |raw| && forall i :: 0 <= i < |ps| ==>
        Document(ps[i].text) && PromptPart(ps[i].prompt) && PromptPart(ps[i].language)
        && ps[i].prompt == raw[i].prompt && ps[i].language == raw[i].language
  {
    hide Document, PromptPart, PromptTextOk, WithoutFields;
    if raw != [] {
      WithoutFieldsDocument(raw[0].text);
      PromptsAreLoaded(raw[1..]);
    }
  }

  /** Whatever the loader accepts has the shape the other results ask for. */
  lemma LoadIsOk(theme: Fields, tenant: Fields, prompts: seq<Prompt>, href: string -> Option<string>)
    requires Document(theme) && Document(tenant) && forall i :: 0 <= i < |prompts| ==> Document(prompts[i].text)
    requires forall i, j :: 0 <= i < j < |prompts| ==>
      prompts[i].prompt != prompts[j].prompt || prompts[i].language != prompts[j].language
    requires Load(theme, tenant, prompts, href).Some?
    ensures LoadedOk(Load(theme, tenant, prompts, href).value)
  {
    ThemeIsPrepared(theme, href);
    PromptsAreLoaded(prompts);
    var picture := PrepareTenant(tenant, href).value[0];
    TextIsDocument(picture.value);
    EmptyIsDocument();
    DocumentCons(picture, []);
    assert [picture] + [] == PrepareTenant(tenant, href).value;
    hide PrepareTheme, LoadPrompts, Document, PromptPart, ThemeShape;
  }

  // ---------- what it keeps ----------

  /** No field at any depth has a name that begins with an underscore. */
  predicate CommentFree(j: Json) {
    match j
    case Arr(items) => forall i :: 0 <= i < |items| ==> CommentFree(items[i])
    case Obj(fs) => forall i :: 0 <= i < |fs| ==> (fs[i].key == [] || fs[i].key[0] != '_') && CommentFree(fs[i].value)
    case _ => true
  }

  lemma {:induction false} NoCommentsLeft(j: Json)
    ensures CommentFree(WithoutComments(j))
    decreases j
  {
    match j
    case Arr(items) =>
      WithoutItemsAt(items);
      forall i | 0 <= i < |items| { NoCommentsLeft(items[i]); }
    case Obj(fs) => NoFieldCommentsLeft(fs);
    case _ =>
  }

  lemma {:induction false} NoFieldCommentsLeft(fs: Fields)
    ensures CommentFree(Obj(WithoutFields(fs)))
    decreases fs
  {
    if fs != [] {
      NoCommentsLeft(fs[0].value);
      NoFieldCommentsLeft(fs[1..]);
      var rest, all := WithoutFields(fs[1..]), WithoutFields(fs);
      hide WithoutComments;
      if IsComment(fs[0].key) {
        assert all == rest;
      } else {
        assert all == [Member(fs[0].key, WithoutComments(fs[0].value))] + rest;
        assert forall i :: 0 < i < |all| ==> all[i] == rest[i - 1];
      }
    }
  }

  lemma {:induction false} CommentsDropOnly(fs: Fields, key: string)
    requires !IsComment(key)
    ensures Get(WithoutFields(fs), key) == WithoutComments(Get(fs, key))
  {
    hide WithoutComments;
    if fs == [] {
      MissingStays();
    } else {
      CommentsDropOnly(fs[1..], key);
      var rest, all := WithoutFields(fs[1..]), WithoutFields(fs);
      if IsComment(fs[0].key) {
        assert all == rest;
      } else {
        assert all == [Member(fs[0].key, WithoutComments(fs[0].value))] + rest && all[1..] == rest;
      }
    }
  }

  lemma MissingStays()
    ensures WithoutComments(Missing) == Missing
  {
  }

  /**
   The theme that is loaded is the file without its comments, with the asset of `logo_url`, and of
   `font_url` if there is one, resolved; both must be paths under /auth0/.
   */
  lemma ThemeIsTheFile(raw: Fields, href: string -> Option<string>)
    requires Document(raw) && PrepareTheme(raw, href).Some?
    ensures var theme := PrepareTheme(raw, href).value;
      var logo, font := Get(Get(WithoutFields(raw), "widget").fields, "logo_url"), Get(Get(WithoutFields(raw), "fonts").fields, "font_url");
      && (forall k :: !IsComment(k) && k != "widget" && k != "fonts" ==> Get(theme, k) == WithoutComments(Get(raw, k)))
      && logo.Str? && "/auth0/" <= logo.s && href(logo.s).Some?
      && Get(theme, "widget") == Obj(With(Get(WithoutFields(raw), "widget").fields, "logo_url", Str(href(logo.s).value)))
      && (font.Missing? ==> Get(theme, "fonts") == Get(WithoutFields(raw), "fonts"))
      && (!font.Missing? ==>
            && font.Str? && "/auth0/" <= font.s && href(font.s).Some?
            && Get(theme, "fonts") == Obj(With(Get(WithoutFields(raw), "fonts").fields, "font_url", Str(href(font.s).value))))
  {
    hide WithoutFields, With, Get, WithoutComments, Document;
    var theme := WithoutFields(raw);
    var fonts, widget := Get(theme, "fonts"), Get(theme, "widget");
    var logo := RelativeAsset(Get(widget.fields, "logo_url"), href);
    var wanted := Obj(With(widget.fields, "logo_url", Str(logo.value)));
    WithGets(theme, "widget", wanted);
    var branded := With(theme, "widget", wanted);
    if !Get(fonts.fields, "font_url").Missing? {
      var font := RelativeAsset(Get(fonts.fields, "font_url"), href);
      WithGets(branded, "fonts", Obj(With(fonts.fields, "font_url", Str(font.value))));
    }
    forall k | !IsComment(k) && k != "widget" && k != "fonts" { CommentsDropOnly(raw, k); }
  }

  /** The tenant that is loaded is its one picture, resolved. */
  lemma TenantIsTheFile(raw: Fields, href: string -> Option<string>)
    requires PrepareTenant(raw, href).Some?
    ensures var path := Get(WithoutFields(raw), "picture_url");
      && path.Str? && "/auth0/" <= path.s && href(path.s).Some?
      && PrepareTenant(raw, href).value == [Member("picture_url", Str(href(path.s).value))]
    ensures forall i :: 0 <= i < |raw| && !IsComment(raw[i].key) ==> raw[i].key == "picture_url"
  {
    hide Get, WithoutComments, IsComment;
    forall i | 0 <= i < |raw| && !IsComment(raw[i].key) ensures raw[i].key == "picture_url" { KeyStays(raw, i); }
  }

  lemma {:induction false} KeyStays(fs: Fields, i: nat)
    requires i < |fs| && !IsComment(fs[i].key)
    ensures exists j :: 0 <= j < |WithoutFields(fs)| && WithoutFields(fs)[j].key == fs[i].key
  {
    hide WithoutComments, IsComment;
    var rest, all := WithoutFields(fs[1..]), WithoutFields(fs);
    if i == 0 {
      assert all[0].key == fs[0].key;
    } else {
      KeyStays(fs[1..], i - 1);
      var j :| 0 <= j < |rest| && rest[j].key == fs[i].key;
      assert IsComment(fs[0].key) ==> all == rest;
      assert all[if IsComment(fs[0].key) then j else j + 1] == rest[j];
    }
  }

  /** The prompts that are loaded are the files without comments, and every text in them says something. */
  lemma {:induction false} PromptsAreTheFiles(raw: seq<Prompt>)
    requires LoadPrompts(raw).Some?
    ensures var ps := LoadPrompts(raw).value;
      && |ps| == |raw|
      && forall i :: 0 <= i < |ps| ==>
        && ps[i] == Prompt(raw[i].prompt, raw[i].language, WithoutFields(raw[i].text))
        && ps[i].text != [] && SaysSomething(ps[i].text)
  {
    hide WithoutFields, PromptPart, Blank;
    if raw != [] { PromptsAreTheFiles(raw[1..]); }
  }

  /** Each screen is an object that is not empty, of texts that are not blank. */
  predicate SaysSomething(text: Fields) {
    forall i :: 0 <= i < |text| ==>
      && text[i].value.Obj? && text[i].value.fields != []
      && forall j :: 0 <= j < |text[i].value.fields| ==>
        var v := text[i].value.fields[j].value; v.Str? && !Blank(v.s)
  }

  // ---------- exposed files the loader accepts ----------

  const LOGO := "/auth0/logo.png"

  /** A theme file with one object more than it needs. */
  const MARKED_THEME: Fields :=
    [Member("colors", Obj([])), Member("fonts", Obj([])),
     Member("widget", Obj([Member("logo_url", Str(LOGO))])), Member("page", MARKER)]

  const TENANT_FILE: Fields := [Member("picture_url", Str(LOGO))]

  const PROMPT_FILES := [Prompt("login", "en", [Member("login", Obj([Member("title", Str("Welcome"))]))])]

  /** Nothing in it is a comment. */
  predicate Uncommented(fs: Fields) {
    forall i :: 0 <= i < |fs| ==>
      !IsComment(fs[i].key) && !fs[i].value.Arr? && (fs[i].value.Obj? ==> Uncommented(fs[i].value.fields))
  }

  lemma {:induction false} UncommentedStays(fs: Fields)
    requires Uncommented(fs)
    ensures WithoutFields(fs) == fs
    decreases fs
  {
    if fs != [] {
      assert fs == [fs[0]] + fs[1..];
      assert Uncommented(fs[1..]);
      if fs[0].value.Obj? { UncommentedStays(fs[0].value.fields); }
      UncommentedStays(fs[1..]);
    }
  }

  lemma {:induction false} WithAt(fs: Fields, i: nat, value: Json)
    requires DistinctKeys(fs) && i < |fs|
    ensures With(fs, fs[i].key, value) == fs[i := Member(fs[i].key, value)]
  {
    if i > 0 {
      WithAt(fs[1..], i - 1, value);
      assert fs[1..][i - 1 := Member(fs[i].key, value)] == fs[i := Member(fs[i].key, value)][1..];
    }
  }

  /** What the file holds at the fields the loader looks at. */
  lemma MarkedThemeHas()
    ensures WithoutFields(MARKED_THEME) == MARKED_THEME
    ensures Get(MARKED_THEME, "colors") == Obj([]) && Get(MARKED_THEME, "fonts") == Obj([])
    ensures Get(MARKED_THEME, "widget") == Obj([Member("logo_url", Str(LOGO))])
    ensures DistinctKeys(MARKED_THEME) && Get([Member("logo_url", Str(LOGO))], "logo_url") == Str(LOGO)
  {
    UncommentedStays(MARKED_THEME);
    FilesAreDocuments();
    hide WithoutFields;
    GetAt(MARKED_THEME, 0);
    GetAt(MARKED_THEME, 1);
    GetAt(MARKED_THEME, 2);
    GetAt([Member("logo_url", Str(LOGO))], 0);
  }

  lemma MarkedThemePrepares(href: string -> Option<string>)
    requires href(LOGO).Some?
    ensures PrepareTheme(MARKED_THEME, href)
      == Some(MARKED_THEME[2 := Member("widget", Obj([Member("logo_url", Str(href(LOGO).value))]))])
  {
    MarkedThemeHas();
    NoneInEmpty("font_url");
    hide WithoutFields, Get, With, DistinctKeys, IsComment;
    var widget, after := [Member("logo_url", Str(LOGO))], [Member("logo_url", Str(href(LOGO).value))];
    assert "/auth0/" <= LOGO;
    assert DistinctKeys(widget) by { OneKeyIsDistinct(widget[0]); }
    WithAt(widget, 0, Str(href(LOGO).value));
    assert With(widget, "logo_url", Str(href(LOGO).value)) == after;
    WithAt(MARKED_THEME, 2, Obj(after));
  }

  lemma OneKeyIsDistinct(m: Member<Json>)
    ensures DistinctKeys([m])
  {
  }

  lemma NoneInEmpty(key: string)
    ensures Get([], key) == Missing
  {
  }

  lemma TenantFilePrepares(href: string -> Option<string>)
    requires href(LOGO).Some?
    ensures PrepareTenant(TENANT_FILE, href).Some?
  {
    UncommentedStays(TENANT_FILE);
    hide WithoutFields;
    assert "/auth0/" <= LOGO;
  }

  lemma NotBlank(s: string)
    requires s != [] && Alphanumeric(s[0])
    ensures !Blank(s)
  {
    assert s[0] !in SPACES;
  }

  lemma PromptFilesLoad()
    ensures LoadPrompts(PROMPT_FILES).Some?
  {
    var p := PROMPT_FILES[0];
    UncommentedStays(p.text);
    hide WithoutFields;
    assert PROMPT_FILES[1..] == [];
    NotBlank("login");
    NotBlank("title");
    NotBlank("Welcome");
    hide Blank;
    assert TextOk([Member("title", Str("Welcome"))]);
    assert PromptTextOk(p.text);
  }

  lemma MarkedThemeLoads(href: string -> Option<string>) returns (d: Loaded)
    requires href(LOGO).Some?
    ensures Load(MARKED_THEME, TENANT_FILE, PROMPT_FILES, href) == Some(d) && LoadedOk(d)
    ensures |d.theme| == 4 && d.theme[3].value == MARKER
    ensures forall i :: 0 <= i < 4 ==> d.theme[i].key == MARKED_THEME[i].key
  {
    hide PrepareTheme, PrepareTenant, LoadPrompts, LoadedOk, Document;
    MarkedThemePrepares(href);
    TenantFilePrepares(href);
    PromptFilesLoad();
    FilesAreDocuments();
    d := Load(MARKED_THEME, TENANT_FILE, PROMPT_FILES, href).value;
    LoadIsOk(MARKED_THEME, TENANT_FILE, PROMPT_FILES, href);
  }

  /**
   Files the loader accepts, and two remotes with one digest of which `apply` writes the theme
   to the second only.
   */
  lemma ExposedFilesLoad(href: string -> Option<string>) returns (d: Loaded, r: Remote, s: Remote)
    requires href(LOGO).Some?
    ensures Load(MARKED_THEME, TENANT_FILE, PROMPT_FILES, href) == Some(d)
    ensures LoadedOk(d) && Exposed(d)
    ensures Accepted(r) && Accepted(s) && !SameDigestSameWrites(r, s, d)
  {
    hide Load, LoadedOk, SameDigestSameWrites, Accepted, ThemeId;
    d := MarkedThemeLoads(href);
    assert ValueUsesMarker(d.theme[3].value);
    NoIdAmong(d.theme);
    r, s := ThemePreviewBreaks(d);
  }

  lemma {:induction false} NoIdAmong(fs: Fields)
    requires forall i :: 0 <= i < |fs| ==> fs[i].key != "themeId"
    ensures Get(fs, "themeId") == Missing && ThemeId(Some(fs)).Ok?
  {
    if fs != [] { NoIdAmong(fs[1..]); }
  }

  lemma OneFieldDocument(m: Member<Json>)
    requires Valid(m.value) && Whole(m.value)
    ensures Document([m]) && Valid(Obj([m])) && Whole(Obj([m]))
  {
    EmptyIsDocument();
    DocumentCons(m, []);
    assert [m] + [] == [m];
  }

  lemma FilesAreDocuments()
    ensures Document(MARKED_THEME) && Document(TENANT_FILE)
    ensures forall i :: 0 <= i < |PROMPT_FILES| ==> Document(PROMPT_FILES[i].text)
  {
    OneFieldDocument(Member("logo_url", Str(LOGO)));
    OneFieldDocument(MARKER.fields[0]);
    OneFieldDocument(Member("title", Str("Welcome")));
    OneFieldDocument(PROMPT_FILES[0].text[0]);
    assert forall i :: 0 <= i < 4 ==> Valid(MARKED_THEME[i].value) && Whole(MARKED_THEME[i].value);
  }
}
