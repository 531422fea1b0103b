/** Sorting keys: values that differ only in key order, and exactly those, get the same sorted form. */
module JsonSorted {
  import opened JsonTree
  import opened JsonCanonical

  // ---------- the order on keys ----------

  predicate Below(a: string, b: string) { a != b && AtMost(a, b) }

  lemma {:induction false} AtMostIsTotal(a: string, b: string)
    ensures AtMost(a, b) || AtMost(b, a)
    ensures AtMost(a, b) && AtMost(b, a) ==> a == b
  {
    if a != [] && b != [] {
      if a[0] == b[0] {
        AtMostIsTotal(a[1..], b[1..]);
        assert a == [a[0]] + a[1..] && b == [b[0]] + b[1..];
      }
    }
  }

  lemma {:induction false} AtMostIsTransitive(a: string, b: string, c: string)
    requires AtMost(a, b) && AtMost(b, c)
    ensures AtMost(a, c)
  {
    if a != [] && a[0] == b[0] == c[0] { AtMostIsTransitive(a[1..], b[1..], c[1..]); }
  }

  lemma BelowIsTransitive(a: string, b: string, c: string)
    requires Below(a, b) && Below(b, c)
    ensures Below(a, c)
  {
    AtMostIsTransitive(a, b, c);
    AtMostIsTotal(a, b);
  }

  predicate Ascending<T>(fs: seq<Member<T>>) {
    forall i, j :: 0 <= i < j < |fs| ==> Below(fs[i].key, fs[j].key)
  }

  ghost predicate SameMembers<T(!new)>(fs: seq<Member<T>>, gs: seq<Member<T>>) {
    forall m :: m in fs <==> m in gs
  }

  // ---------- sorting ----------

  lemma {:induction false} InsertKeeps<T(!new)>(m: Member<T>, fs: seq<Member<T>>)
    requires Ascending(fs) && m.key !in Keys(fs)
    ensures Ascending(Insert(m, fs)) && SameMembers(Insert(m, fs), [m] + fs)
  {
    hide AtMost;
    if fs != [] {
      assert fs[0].key in Keys(fs);
      if AtMost(m.key, fs[0].key) {
        forall j | 0 <= j < |fs| ensures Below(m.key, fs[j].key) {
          assert fs[j].key in Keys(fs);
          if j > 0 { BelowIsTransitive(m.key, fs[0].key, fs[j].key); }
        }
      } else {
        AtMostIsTotal(m.key, fs[0].key);
        assert forall k :: k in Keys(fs[1..]) ==> k in Keys(fs);
        InsertKeeps(m, fs[1..]);
        var rest := Insert(m, fs[1..]);
        assert fs == [fs[0]] + fs[1..];
        forall j | 0 <= j < |rest| ensures Below(fs[0].key, rest[j].key) {
          assert rest[j] in [m] + fs[1..];
        }
      }
    }
  }

  lemma {:induction false} SortKeeps<T(!new)>(fs: seq<Member<T>>)
    requires DistinctKeys(fs)
    ensures Ascending(Sort(fs)) && SameMembers(Sort(fs), fs)
  {
    hide Insert, Below;
    if fs != [] {
      SortKeeps(fs[1..]);
      var rest := Sort(fs[1..]);
      forall i | 0 <= i < |rest| ensures rest[i].key != fs[0].key { assert rest[i] in fs[1..]; }
      InsertKeeps(fs[0], rest);
      assert fs == [fs[0]] + fs[1..];
    }
  }

  lemma AscendingIsDistinct<T>(fs: seq<Member<T>>)
    requires Ascending(fs)
    ensures DistinctKeys(fs)
  {
  }

  lemma FirstOfAscending<T(!new)>(fs: seq<Member<T>>, gs: seq<Member<T>>)
    requires fs != [] && gs != [] && Ascending(fs) && Ascending(gs) && SameMembers(fs, gs)
    ensures fs[0] == gs[0]
  {
    hide AtMost;
    assert fs[0] in gs && gs[0] in fs;
    var i :| 0 <= i < |gs| && gs[i] == fs[0];
    var j :| 0 <= j < |fs| && fs[j] == gs[0];
    AtMostIsTotal(fs[0].key, gs[0].key);
  }

  lemma TailAlike<T(!new)>(fs: seq<Member<T>>, gs: seq<Member<T>>)
    requires fs != [] && gs != [] && Ascending(fs) && Ascending(gs) && SameMembers(fs, gs) && fs[0] == gs[0]
    ensures forall m :: m in fs[1..] ==> m in gs[1..]
  {
    hide AtMost;
    forall i | 1 <= i < |fs| ensures fs[i] in gs[1..] {
      assert Below(fs[0].key, fs[i].key);
      assert fs[i] in fs && fs[i] in gs && fs[i] != gs[0];
      var k :| 0 <= k < |gs| && gs[k] == fs[i];
      assert gs[1..][k - 1] == fs[i];
    }
  }

  /** A sorted list of fields is determined by which fields it holds. */
  lemma {:induction false} AscendingAlike<T(!new)>(fs: seq<Member<T>>, gs: seq<Member<T>>)
    requires Ascending(fs) && Ascending(gs) && SameMembers(fs, gs)
    ensures fs == gs
  {
    hide AtMost, Below;
    assert forall i :: 0 <= i < |fs| ==> fs[i] in gs;
    assert forall i :: 0 <= i < |gs| ==> gs[i] in fs;
    if fs != [] {
      assert fs[0] in gs;
      FirstOfAscending(fs, gs);
      TailAlike(fs, gs);
      TailAlike(gs, fs);
      AscendingAlike(fs[1..], gs[1..]);
      assert fs == [fs[0]] + fs[1..] && gs == [gs[0]] + gs[1..];
    }
  }

  // ---------- lookup ----------

  lemma {:induction false} GetMember(fs: Fields, m: Member<Json>)
    requires DistinctKeys(fs) && m in fs
    ensures Get(fs, m.key) == m.value
  {
    if fs[0] != m {
      assert m in fs[1..];
      GetMember(fs[1..], m);
      assert fs[0].key != m.key by { var i :| 0 <= i < |fs[1..]| && fs[1..][i] == m; }
    }
  }

  lemma {:induction false} GetKey(fs: Fields, key: string)
    ensures key in Keys(fs) <==> Member(key, Get(fs, key)) in fs
    ensures key !in Keys(fs) ==> Get(fs, key) == Missing
  {
    if fs != [] && fs[0].key != key {
      GetKey(fs[1..], key);
      assert fs == [fs[0]] + fs[1..];
    }
  }

  // ---------- the sorted form ----------

  lemma {:induction false} NormItemsAt(items: seq<Json>)
    ensures |NormItems(items)| == |items|
    ensures forall i :: 0 <= i < |items| ==> NormItems(items)[i] == Norm(items[i])
  {
    hide Norm;
    if items != [] { NormItemsAt(items[1..]); }
  }

  lemma {:induction false} NormFieldsAt(fs: Fields)
    ensures |NormFields(fs)| == |fs|
    ensures forall i :: 0 <= i < |fs| ==> NormFields(fs)[i] == Member(fs[i].key, Norm(fs[i].value))
  {
    hide Norm;
    if fs != [] { NormFieldsAt(fs[1..]); }
  }

  lemma SortedFields(fs: Fields)
    requires DistinctKeys(fs)
    ensures Ascending(Sort(NormFields(fs))) && SameMembers(Sort(NormFields(fs)), NormFields(fs))
    ensures forall m :: m in NormFields(fs) <==> exists i :: 0 <= i < |fs| && m == Member(fs[i].key, Norm(fs[i].value))
  {
    hide Sort, Norm, Ascending;
    NormFieldsAt(fs);
    SortKeeps(NormFields(fs));
  }

  lemma {:induction false} NormKeeps(j: Json)
    requires Valid(j)
    ensures Valid(Norm(j))
    ensures Whole(j) ==> Whole(Norm(j))
    decreases j
  {
    match j
    case Arr(items) =>
      NormItemsAt(items);
      forall i | 0 <= i < |items| { NormKeeps(items[i]); }
    case Obj(fs) =>
      SortedFields(fs);
      var gs := Sort(NormFields(fs));
      hide Sort, Below, AtMost;
      AscendingIsDistinct(gs);
      forall i | 0 <= i < |gs| ensures Valid(gs[i].value) && (Whole(j) ==> Whole(gs[i].value)) {
        assert gs[i] in gs && gs[i] in NormFields(fs);
        var k :| 0 <= k < |fs| && gs[i] == Member(fs[k].key, Norm(fs[k].value));
        NormKeeps(fs[k].value);
      }
    case _ =>
  }

  /** Deep equality is exactly having the same sorted form. */
  lemma {:induction false} DeepEqualIsSameNorm(a: Json, b: Json)
    requires Valid(a) && Valid(b)
    ensures DeepEqual(a, b) <==> Norm(a) == Norm(b)
    decreases a
  {
    match a
    case Arr(items) =>
      if b.Arr? {
        NormItemsAt(items);
        NormItemsAt(b.items);
        if |items| == |b.items| {
          forall i | 0 <= i < |items| { DeepEqualIsSameNorm(items[i], b.items[i]); }
          SeqAlike(NormItems(items), NormItems(b.items));
        }
      }
    case Obj(fs) =>
      if b.Obj? {
        forall i | 0 <= i < |fs| ensures fs[i].key in Keys(b.fields) ==>
            (DeepEqual(fs[i].value, Get(b.fields, fs[i].key)) <==> Norm(fs[i].value) == Norm(Get(b.fields, fs[i].key))) {
          GetKey(b.fields, fs[i].key);
          if fs[i].key in Keys(b.fields) { DeepEqualIsSameNorm(fs[i].value, Get(b.fields, fs[i].key)); }
        }
        FieldsAlike(fs, b.fields);
      }
    case _ =>
  }

  lemma SeqAlike<T>(s: seq<T>, t: seq<T>)
    requires |s| == |t|
    ensures s == t <==> forall i :: 0 <= i < |s| ==> s[i] == t[i]
  {
  }

  ghost predicate SameFields(fs: Fields, gs: Fields) {
    Keys(fs) == Keys(gs) && forall i :: 0 <= i < |fs| ==> Norm(fs[i].value) == Norm(Get(gs, fs[i].key))
  }

  lemma FieldsAlike(fs: Fields, gs: Fields)
    requires DistinctKeys(fs) && DistinctKeys(gs)
    ensures Sort(NormFields(fs)) == Sort(NormFields(gs)) <==> SameFields(fs, gs)
  {
    hide Sort, Norm, Below, AtMost, Ascending, SameFields;
    var p, q := NormFields(fs), NormFields(gs);
    SortedFields(fs);
    SortedFields(gs);
    if Sort(p) == Sort(q) {
      SameMembersAlike(fs, gs);
    } else if SameFields(fs, gs) {
      AlikeSameMembers(fs, gs);
      AscendingAlike(Sort(p), Sort(q));
      assert false;
    }
  }

  lemma SameMembersAlike(fs: Fields, gs: Fields)
    requires DistinctKeys(fs) && DistinctKeys(gs)
    requires SameMembers(NormFields(fs), NormFields(gs))
    ensures SameFields(fs, gs)
  {
    hide Norm, NormFields;
    var p, q := NormFields(fs), NormFields(gs);
    NormFieldsAt(fs);
    NormFieldsAt(gs);
    forall i | 0 <= i < |fs|
      ensures fs[i].key in Keys(gs) && Norm(fs[i].value) == Norm(Get(gs, fs[i].key)) {
      assert p[i] in p && p[i] in q;
      var k :| 0 <= k < |gs| && q[k] == p[i];
      GetMember(gs, gs[k]);
    }
    forall k | 0 <= k < |gs| ensures gs[k].key in Keys(fs) {
      assert q[k] in q && q[k] in p;
      var i :| 0 <= i < |fs| && p[i] == q[k];
      assert fs[i].key == gs[k].key;
    }
  }

  lemma AlikeSameMembers(fs: Fields, gs: Fields)
    requires DistinctKeys(fs) && DistinctKeys(gs) && SameFields(fs, gs)
    ensures SameMembers(NormFields(fs), NormFields(gs))
  {
    hide Norm, NormFields;
    var p, q := NormFields(fs), NormFields(gs);
    NormFieldsAt(fs);
    NormFieldsAt(gs);
    forall i | 0 <= i < |fs| ensures p[i] in q {
      assert fs[i].key in Keys(fs);
      var k :| 0 <= k < |gs| && gs[k].key == fs[i].key;
      GetMember(gs, gs[k]);
      assert q[k] == p[i];
    }
    forall k | 0 <= k < |gs| ensures q[k] in p {
      assert gs[k].key in Keys(gs);
      var i :| 0 <= i < |fs| && fs[i].key == gs[k].key;
      GetMember(gs, gs[k]);
      assert p[i] == q[k];
    }
  }

  // ---------- the canonical text is the text of the sorted form ----------

  lemma {:induction false} InsertRendered(m: Member<Json>, fs: Fields)
    ensures RenderFields(Insert(m, fs)) == Insert(Member(m.key, Render(m.value)), RenderFields(fs))
  {
    hide Render, AtMost;
    if fs != [] && !AtMost(m.key, fs[0].key) {
      InsertRendered(m, fs[1..]);
      assert Insert(m, fs)[1..] == Insert(m, fs[1..]);
    } else {
      assert Insert(m, fs)[1..] == fs;
    }
  }

  lemma {:induction false} SortRendered(fs: Fields)
    ensures RenderFields(Sort(fs)) == Sort(RenderFields(fs))
  {
    hide Render;
    if fs != [] {
      SortRendered(fs[1..]);
      InsertRendered(fs[0], Sort(fs[1..]));
    }
  }

  lemma {:induction false} CanonicalIsSortedText(j: Json)
    ensures Canonical(j) == Render(Norm(j))
    decreases j
  {
    hide Comma, Labelled, Sort;
    match j
    case Arr(items) => CanonicalItemsText(items);
    case Obj(fs) =>
      CanonicalFieldsText(fs);
      SortRendered(NormFields(fs));
    case _ =>
  }

  lemma {:induction false} CanonicalItemsText(items: seq<Json>)
    ensures CanonicalItems(items) == RenderItems(NormItems(items))
    decreases items
  {
    hide Norm, Render, Canonical;
    if items != [] {
      CanonicalIsSortedText(items[0]);
      CanonicalItemsText(items[1..]);
    }
  }

  lemma {:induction false} CanonicalFieldsText(fs: Fields)
    ensures CanonicalFields(fs) == RenderFields(NormFields(fs))
    decreases fs
  {
    hide Norm, Render, Canonical;
    if fs != [] {
      CanonicalIsSortedText(fs[0].value);
      CanonicalFieldsText(fs[1..]);
    }
  }
}
