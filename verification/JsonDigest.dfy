/** What the canonical text, and a digest of several of them, tells about the values. */
module JsonDigest {
  import opened JsonTree
  import opened JsonCanonical
  import opened JsonText
  import opened JsonSorted

  // ---------- the marker ----------

  lemma {:induction false} EscapedAsIs(s: string)
    requires forall i :: 0 <= i < |s| ==> s[i] != '\"' && s[i] != '\\' && s[i] as int >= 32
    ensures Escaped(s) == s
  {
    if s != [] { EscapedAsIs(s[1..]); }
  }

  lemma OneFieldText(m: Member<Json>)
    ensures Render(Obj([m])) == "{" + (Quote(m.key) + ":" + Render(m.value)) + "}"
  {
    hide Quote;
    var parts := [Member(m.key, Render(m.value))];
    assert RenderFields([m]) == parts;
    assert Labelled(parts) == [Quote(m.key) + ":" + Render(m.value)];
  }

  lemma MarkerText()
    ensures Render(MARKER) == Render(Missing)
  {
    hide Quote, Escaped;
    MarkerKeyText();
    MarkerValueText();
    OneFieldText(MARKER.fields[0]);
  }

  lemma MarkerKeyText()
    ensures Quote("$boxlite") == "\"$boxlite\""
  {
    hide Quote, Escaped;
    QuoteAsIs("$boxlite");
    assert ['\"'] + "$boxlite" + ['\"'] == "\"$boxlite\"";
  }

  lemma MarkerValueText()
    ensures Render(Str("missing")) == "\"missing\""
  {
    hide Quote, Escaped;
    QuoteAsIs("missing");
    assert ['\"'] + "missing" + ['\"'] == "\"missing\"";
  }

  lemma QuoteAsIs(s: string)
    requires forall i :: 0 <= i < |s| ==> s[i] != '\"' && s[i] != '\\' && s[i] as int >= 32
    ensures Quote(s) == ['\"'] + s + ['\"']
  {
    EscapedAsIs(s);
  }

  lemma {:induction false} PlainItemsAt(items: seq<Json>)
    ensures |PlainItems(items)| == |items|
    ensures forall i :: 0 <= i < |items| ==> PlainItems(items)[i] == Plain(items[i])
  {
    hide Plain;
    if items != [] { PlainItemsAt(items[1..]); }
  }

  lemma {:induction false} PlainFieldsAt(fs: Fields)
    ensures |PlainFields(fs)| == |fs|
    ensures forall i :: 0 <= i < |fs| ==> PlainFields(fs)[i] == Member(fs[i].key, Plain(fs[i].value))
    ensures Keys(PlainFields(fs)) == Keys(fs)
  {
    hide Plain;
    if fs != [] {
      PlainFieldsAt(fs[1..]);
      KeysSplit(fs);
      KeysSplit(PlainFields(fs));
    }
  }

  lemma KeysSplit<T>(fs: seq<Member<T>>)
    requires fs != []
    ensures Keys(fs) == {fs[0].key} + Keys(fs[1..])
  {
    assert fs == [fs[0]] + fs[1..];
    forall k ensures k in Keys(fs) <==> k == fs[0].key || k in Keys(fs[1..]) {
      if k in Keys(fs) {
        var i :| 0 <= i < |fs| && fs[i].key == k;
        if i > 0 { assert fs[1..][i - 1].key == k; }
      }
      if k in Keys(fs[1..]) {
        var i :| 0 <= i < |fs[1..]| && fs[1..][i].key == k;
        assert fs[i + 1].key == k;
      }
    }
  }

  lemma {:induction false} PlainIsWhole(j: Json)
    requires Valid(j)
    ensures Valid(Plain(j)) && Whole(Plain(j))
    decreases j
  {
    match j
    case Arr(items) =>
      PlainItemsAt(items);
      forall i | 0 <= i < |items| { PlainIsWhole(items[i]); }
    case Obj(fs) =>
      PlainFieldsAt(fs);
      forall i | 0 <= i < |fs| { PlainIsWhole(fs[i].value); }
    case _ =>
  }

  lemma {:induction false} WholeIsPlain(j: Json)
    requires Whole(j)
    ensures Plain(j) == j
    decreases j
  {
    match j
    case Arr(items) =>
      PlainItemsAt(items);
      forall i | 0 <= i < |items| { WholeIsPlain(items[i]); }
      SeqAlike(PlainItems(items), items);
    case Obj(fs) =>
      PlainFieldsAt(fs);
      forall i | 0 <= i < |fs| { WholeIsPlain(fs[i].value); }
      SeqAlike(PlainFields(fs), fs);
    case _ =>
  }

  lemma {:induction false} PlainText(j: Json)
    ensures Render(Plain(j)) == Render(j)
    decreases j
  {
    hide Comma, Labelled, Quote;
    match j
    case Missing => MarkerText();
    case Arr(items) => PlainItemsText(items);
    case Obj(fs) => PlainFieldsText(fs);
    case _ =>
  }

  lemma {:induction false} PlainItemsText(items: seq<Json>)
    ensures RenderItems(PlainItems(items)) == RenderItems(items)
    decreases items
  {
    hide Plain, Render;
    if items != [] {
      PlainText(items[0]);
      PlainItemsText(items[1..]);
    }
  }

  lemma {:induction false} PlainFieldsText(fs: Fields)
    ensures RenderFields(PlainFields(fs)) == RenderFields(fs)
    decreases fs
  {
    hide Plain, Render;
    if fs != [] {
      PlainText(fs[0].value);
      PlainFieldsText(fs[1..]);
    }
  }

  lemma {:induction false} InsertPlain(m: Member<Json>, fs: Fields)
    ensures PlainFields(Insert(m, fs)) == Insert(Member(m.key, Plain(m.value)), PlainFields(fs))
  {
    hide Plain, AtMost;
    if fs != [] && !AtMost(m.key, fs[0].key) {
      InsertPlain(m, fs[1..]);
      assert Insert(m, fs)[1..] == Insert(m, fs[1..]);
    } else {
      assert Insert(m, fs)[1..] == fs;
    }
  }

  lemma {:induction false} SortPlain(fs: Fields)
    ensures PlainFields(Sort(fs)) == Sort(PlainFields(fs))
  {
    hide Plain;
    if fs != [] {
      SortPlain(fs[1..]);
      InsertPlain(fs[0], Sort(fs[1..]));
    }
  }

  lemma {:induction false} NormPlain(j: Json)
    ensures Norm(Plain(j)) == Plain(Norm(j))
    decreases j
  {
    hide Sort;
    match j
    case Missing => MarkerNorm();
    case Arr(items) => NormPlainItems(items);
    case Obj(fs) =>
      NormPlainFields(fs);
      SortPlain(NormFields(fs));
    case _ =>
  }

  lemma MarkerNorm()
    ensures Norm(MARKER) == MARKER
  {
    var m := Member("$boxlite", Str("missing"));
    assert NormFields([m]) == [m];
    assert Sort([m]) == Insert(m, Sort([]));
  }

  lemma {:induction false} NormPlainItems(items: seq<Json>)
    ensures NormItems(PlainItems(items)) == PlainItems(NormItems(items))
    decreases items
  {
    hide Plain, Norm;
    if items != [] {
      NormPlain(items[0]);
      NormPlainItems(items[1..]);
    }
  }

  lemma {:induction false} NormPlainFields(fs: Fields)
    ensures NormFields(PlainFields(fs)) == PlainFields(NormFields(fs))
    decreases fs
  {
    hide Plain, Norm;
    if fs != [] {
      NormPlain(fs[0].value);
      NormPlainFields(fs[1..]);
    }
  }

  // ---------- what the text tells ----------

  /**
   Two values have the same canonical text exactly when they are deeply equal, key order
   aside, once the marker stands for everything missing.
   */
  lemma CanonicalTells(a: Json, b: Json)
    requires Valid(a) && Valid(b)
    ensures Canonical(a) == Canonical(b) <==> DeepEqual(Plain(a), Plain(b))
  {
    CanonicalOfPlain(a);
    CanonicalOfPlain(b);
    hide Canonical, Render, Norm, Plain, DeepEqual, Valid, Whole;
    DeepEqualIsSameNorm(Plain(a), Plain(b));
    if Canonical(a) == Canonical(b) {
      var p, q := Norm(Plain(a)), Norm(Plain(b));
      assert Render(p) + "" == Render(q) + "";
      RenderInjective(p, q, "", "");
    }
  }

  lemma CanonicalOfPlain(a: Json)
    requires Valid(a)
    ensures Canonical(a) == Render(Norm(Plain(a)))
    ensures Valid(Plain(a)) && Valid(Norm(Plain(a))) && Whole(Norm(Plain(a)))
  {
    hide Canonical, Render, Norm, Plain, Valid, Whole;
    CanonicalIsSortedText(a);
    PlainText(Norm(a));
    NormPlain(a);
    PlainIsWhole(a);
    NormKeeps(Plain(a));
  }

  /** Nothing in it is the object used as the missing marker. */
  predicate MarkerFree(j: Json) {
    match j
    case Arr(items) => forall i :: 0 <= i < |items| ==> MarkerFree(items[i])
    case Obj(fs) => j != MARKER && forall i :: 0 <= i < |fs| ==> MarkerFree(fs[i].value)
    case _ => true
  }

  lemma {:induction false} GetPlain(fs: Fields, key: string)
    requires key in Keys(fs)
    ensures Get(PlainFields(fs), key) == Plain(Get(fs, key))
  {
    hide Plain;
    if fs[0].key != key {
      KeysSplit(fs);
      GetPlain(fs[1..], key);
    }
  }

  lemma PlainOfObject(fs: Fields)
    ensures Plain(Obj(fs)) == Obj(PlainFields(fs))
  {
  }

  lemma ObjectsAlike(fs: Fields, gs: Fields)
    ensures DeepEqual(Obj(fs), Obj(gs)) <==>
      Keys(fs) == Keys(gs) && forall i :: 0 <= i < |fs| ==> DeepEqual(fs[i].value, Get(gs, fs[i].key))
  {
  }

  lemma PlainFieldsAlike(fs: Fields, gs: Fields)
    requires forall i :: 0 <= i < |fs| && fs[i].key in Keys(gs) ==>
      (DeepEqual(Plain(fs[i].value), Plain(Get(gs, fs[i].key))) <==> DeepEqual(fs[i].value, Get(gs, fs[i].key)))
    ensures DeepEqual(Plain(Obj(fs)), Plain(Obj(gs))) <==> DeepEqual(Obj(fs), Obj(gs))
  {
    hide PlainFields, DeepEqual, Get, Keys;
    PlainFieldsAt(fs);
    PlainFieldsAt(gs);
    PlainOfObject(fs);
    PlainOfObject(gs);
    hide Plain;
    forall i | 0 <= i < |fs| && fs[i].key in Keys(gs)
      ensures Get(PlainFields(gs), fs[i].key) == Plain(Get(gs, fs[i].key)) {
      GetPlain(gs, fs[i].key);
    }
    forall i | 0 <= i < |fs| ensures fs[i].key in Keys(fs) { KeyIsThere(fs, i); }
    ObjectsAlike(PlainFields(fs), PlainFields(gs));
    ObjectsAlike(fs, gs);
  }

  lemma KeyIsThere(fs: Fields, i: nat)
    requires i < |fs|
    ensures fs[i].key in Keys(fs)
  {
  }

  lemma {:induction false} PlainAlike(a: Json, b: Json)
    requires Valid(a) && Valid(b) && MarkerFree(a) && MarkerFree(b)
    ensures DeepEqual(Plain(a), Plain(b)) <==> DeepEqual(a, b)
    decreases a
  {
    match a
    case Missing => MarkerAlike(b);
    case Arr(items) =>
      if b.Arr? {
        PlainItemsAt(items);
        PlainItemsAt(b.items);
        if |items| == |b.items| {
          forall i | 0 <= i < |items| { PlainAlike(items[i], b.items[i]); }
        }
      }
    case Obj(fs) =>
      if b.Obj? {
        forall i | 0 <= i < |fs| && fs[i].key in Keys(b.fields)
          ensures DeepEqual(Plain(fs[i].value), Plain(Get(b.fields, fs[i].key)))
            <==> DeepEqual(fs[i].value, Get(b.fields, fs[i].key)) {
          GetKey(b.fields, fs[i].key);
          PlainAlike(fs[i].value, Get(b.fields, fs[i].key));
        }
        PlainFieldsAlike(fs, b.fields);
      } else if b.Missing? {
        MarkerAlike(a);
        PlainIsWhole(a);
        DeepEqualIsSameNorm(Plain(a), MARKER);
        DeepEqualIsSameNorm(MARKER, Plain(a));
      }
    case _ => if b.Missing? { assert !Plain(a).Obj?; }
  }

  lemma TextAlike(text: string, j: Json)
    ensures DeepEqual(Str(text), j) <==> j == Str(text)
    ensures Plain(j) == Str(text) <==> j == Str(text)
  {
  }

  lemma OneKeyOneField(fs: Fields, i: nat)
    requires DistinctKeys(fs) && i < |fs| && Keys(fs) == {fs[i].key}
    ensures fs == [fs[i]]
  {
    hide Keys;
    forall j | 0 <= j < |fs| ensures fs[j] == fs[i] && j == i { KeyIsThere(fs, j); }
    assert fs[0] == fs[i] && fs[|fs| - 1] == fs[i];
  }

  lemma MarkerKeys()
    ensures Keys(MARKER.fields) == {"$boxlite"}
  {
    assert forall k :: k in Keys(MARKER.fields) <==> k == "$boxlite" by {
      assert MARKER.fields[0].key == "$boxlite";
    }
  }

  lemma OnlyMarkerLooksLikeIt(fs: Fields)
    requires Valid(Obj(fs)) && DeepEqual(MARKER, Plain(Obj(fs)))
    ensures Obj(fs) == MARKER
  {
    var ps := PlainFields(fs);
    MarkerKeys();
    PlainOfObject(fs);
    PlainFieldsAt(fs);
    ObjectsAlike(MARKER.fields, ps);
    hide DeepEqual, Plain, PlainFields, Keys, Get;
    GetKey(ps, "$boxlite");
    var i :| 0 <= i < |ps| && ps[i] == Member("$boxlite", Get(ps, "$boxlite"));
    assert DeepEqual(MARKER.fields[0].value, ps[i].value);
    TextAlike("missing", ps[i].value);
    TextAlike("missing", fs[i].value);
    OneKeyOneField(fs, i);
  }

  lemma MarkerAlike(b: Json)
    requires Valid(b) && MarkerFree(b)
    ensures DeepEqual(MARKER, Plain(b)) <==> b.Missing?
  {
    match b
    case Missing => assert DeepEqual(MARKER.fields[0].value, Get(MARKER.fields, "$boxlite"));
    case Obj(fs) =>
      if DeepEqual(MARKER, Plain(b)) { OnlyMarkerLooksLikeIt(fs); }
    case _ =>
  }

  /**
   On values that never hold the marker, the canonical text does not depend on key order
   and tells everything else.
   */
  lemma CanonicalUpToKeyOrder(a: Json, b: Json)
    requires Valid(a) && Valid(b) && MarkerFree(a) && MarkerFree(b)
    ensures Canonical(a) == Canonical(b) <==> DeepEqual(a, b)
  {
    CanonicalTells(a, b);
    PlainAlike(a, b);
  }

  /** With the marker in play the text can hide a difference. */
  lemma MarkerCollides()
    ensures var absent, present := Obj([Member("a", Missing)]), Obj([Member("a", MARKER)]);
      Valid(absent) && Valid(present) && Canonical(absent) == Canonical(present) && !DeepEqual(absent, present)
  {
    var absent, present := Obj([Member("a", Missing)]), Obj([Member("a", MARKER)]);
    assert Valid(MARKER);
    assert PlainFields(absent.fields) == present.fields;
    WholeIsPlain(present);
    DeepEqualIsSameNorm(present, present);
    CanonicalTells(absent, present);
    assert !DeepEqual(absent.fields[0].value, Get(present.fields, "a"));
  }

  // ---------- the digest ----------

  /** What is fed to the hash: each part followed by a NUL. */
  function DigestInput(parts: seq<string>): string {
    if parts == [] then [] else parts[0] + ['\0'] + DigestInput(parts[1..])
  }

  predicate NulFree(s: string) { forall i :: 0 <= i < |s| ==> s[i] != '\0' }

  predicate AllNulFree(parts: seq<string>) { forall i :: 0 <= i < |parts| ==> NulFree(parts[i]) }

  lemma PartsApart(x: string, y: string, r: string, s: string)
    requires NulFree(x) && NulFree(y) && x + ['\0'] + r == y + ['\0'] + s
    ensures x == y && r == s
  {
    var t := x + ['\0'] + r;
    assert t[|x|] == '\0' && t[|y|] == '\0';
    assert forall i :: 0 <= i < |x| ==> t[i] == x[i];
    assert forall i :: 0 <= i < |y| ==> t[i] == y[i];
    assert t[..|x|] == x && t[..|y|] == y;
    assert t[|x| + 1..] == r && t[|y| + 1..] == s;
  }

  /** No two lists of NUL-free parts feed the hash the same input. */
  lemma {:induction false} DigestTells(p: seq<string>, q: seq<string>)
    requires AllNulFree(p) && AllNulFree(q)
    ensures DigestInput(p) == DigestInput(q) <==> p == q
  {
    if p != [] && q != [] {
      if DigestInput(p) == DigestInput(q) {
        PartsApart(p[0], q[0], DigestInput(p[1..]), DigestInput(q[1..]));
        DigestTells(p[1..], q[1..]);
        assert p == [p[0]] + p[1..] && q == [q[0]] + q[1..];
      }
    }
  }

  lemma EscapeNulFree(c: char)
    ensures NulFree(Escape(c))
  {
  }

  lemma {:induction false} EscapedNulFree(s: string)
    ensures NulFree(Escaped(s))
  {
    hide Escape;
    if s != [] { EscapeNulFree(s[0]); EscapedNulFree(s[1..]); }
  }

  lemma QuoteNulFree(s: string)
    ensures NulFree(Quote(s))
  {
    EscapedNulFree(s);
  }

  lemma {:induction false} CommaNulFree(parts: seq<string>)
    requires AllNulFree(parts)
    ensures NulFree(Comma(parts))
  {
    if |parts| > 1 { CommaNulFree(parts[1..]); }
  }

  lemma {:induction false} RenderNulFree(j: Json)
    requires Valid(j)
    ensures NulFree(Render(j))
    decreases j
  {
    hide Comma, Quote;
    match j
    case Str(s) => QuoteNulFree(s);
    case Arr(items) =>
      ItemsNulFree(items);
      CommaNulFree(RenderItems(items));
    case Obj(fs) =>
      FieldsNulFree(fs);
      CommaNulFree(Labelled(RenderFields(fs)));
    case _ =>
  }

  lemma {:induction false} ItemsNulFree(items: seq<Json>)
    requires forall i :: 0 <= i < |items| ==> Valid(items[i])
    ensures AllNulFree(RenderItems(items))
    decreases items
  {
    hide Render, Valid;
    if items != [] {
      RenderNulFree(items[0]);
      ItemsNulFree(items[1..]);
    }
  }

  lemma {:induction false} FieldsNulFree(fs: Fields)
    requires forall i :: 0 <= i < |fs| ==> Valid(fs[i].value)
    ensures AllNulFree(Labelled(RenderFields(fs)))
    decreases fs
  {
    hide Render, Valid, Quote;
    if fs != [] {
      QuoteNulFree(fs[0].key);
      RenderNulFree(fs[0].value);
      FieldsNulFree(fs[1..]);
    }
  }

  lemma CanonicalNulFree(j: Json)
    requires Valid(j)
    ensures NulFree(Canonical(j))
  {
    hide Canonical, Render, Norm;
    CanonicalIsSortedText(j);
    NormKeeps(j);
    RenderNulFree(Norm(j));
  }
}
