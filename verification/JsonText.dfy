/** Rendered JSON can be read back: two values that render alike are the same value. */
module JsonText {
  import opened JsonTree
  import opened JsonCanonical

  /** What can follow a value inside a larger text. */
  predicate Stops(r: string) { r == [] || r[0] in {',', ']', '}'} }

  lemma SameTail<T>(c: T, d: T, p: seq<T>, q: seq<T>)
    requires [c] + p == [d] + q
    ensures c == d && p == q
  {
    assert ([c] + p)[0] == c && ([d] + q)[0] == d;
    assert ([c] + p)[1..] == p && ([d] + q)[1..] == q;
  }

  function HexValue(c: char): (n: nat)
    ensures n < 16
  {
    if '0' <= c <= '9' then c as int - '0' as int else if 'a' <= c <= 'f' then c as int - 'a' as int + 10 else 0
  }

  /** The first character of a string, read off its escaped text. */
  function Unescape(x: string): char
    requires x != []
  {
    if x[0] != '\\' || |x| == 1 then x[0]
    else if x[1] == 'n' then '\n'
    else if x[1] == 'r' then '\r'
    else if x[1] == 't' then '\t'
    else if x[1] == 'b' then 8 as char
    else if x[1] == 'f' then 12 as char
    else if x[1] == 'u' && |x| >= 6 then (16 * HexValue(x[4]) + HexValue(x[5])) as char
    else x[1]
  }

  lemma HexRoundTrip(n: nat)
    requires n < 16
    ensures HexValue(HexDigit(n)) == n
  {
  }

  lemma UnescapeReads(c: char, x: string)
    requires Escape(c) <= x
    ensures x != [] && Unescape(x) == c
  {
    assert forall i :: 0 <= i < |Escape(c)| ==> x[i] == Escape(c)[i];
    if c as int < 32 {
      HexRoundTrip(c as int / 16);
      HexRoundTrip(c as int % 16);
    }
  }

  lemma EscapePrefixFree(c: char, d: char, r: string, s: string)
    requires Escape(c) + r == Escape(d) + s
    ensures c == d && r == s
  {
    hide Escape;
    var x := Escape(c) + r;
    UnescapeReads(c, x);
    UnescapeReads(d, x);
    assert x[|Escape(c)|..] == r && x[|Escape(d)|..] == s;
  }

  lemma {:induction false} EscapedInjective(x: string, y: string, r: string, s: string)
    requires Escaped(x) + ['\"'] + r == Escaped(y) + ['\"'] + s
    ensures x == y && r == s
  {
    hide Escape;
    if x != [] && y != [] {
      var p, q := Escaped(x[1..]) + ['\"'] + r, Escaped(y[1..]) + ['\"'] + s;
      assert Escaped(x) + ['\"'] + r == Escape(x[0]) + p;
      assert Escaped(y) + ['\"'] + s == Escape(y[0]) + q;
      EscapePrefixFree(x[0], y[0], p, q);
      EscapedInjective(x[1..], y[1..], r, s);
    } else {
      EscapedStart(x, r);
      EscapedStart(y, s);
      assert x == [] <==> y == [];
      SameTail('\"', '\"', r, s);
    }
  }

  lemma EscapedStart(x: string, r: string)
    ensures (Escaped(x) + ['\"'] + r)[0] == '\"' <==> x == []
    ensures x == [] ==> Escaped(x) + ['\"'] + r == ['\"'] + r
  {
    if x != [] { assert (Escaped(x) + ['\"'] + r)[0] == Escape(x[0])[0]; }
  }

  lemma QuoteInjective(x: string, y: string, r: string, s: string)
    requires Quote(x) + r == Quote(y) + s
    ensures x == y && r == s
  {
    assert Quote(x) + r == ['\"'] + (Escaped(x) + ['\"'] + r);
    assert Quote(y) + s == ['\"'] + (Escaped(y) + ['\"'] + s);
    SameTail('\"', '\"', Escaped(x) + ['\"'] + r, Escaped(y) + ['\"'] + s);
    EscapedInjective(x, y, r, s);
  }

  predicate StartsLike(c: char, j: Json) {
    match j
    case Missing => c == '{'
    case Null => c == 'n'
    case Bool(b) => c == (if b then 't' else 'f')
    case Num(_) => c in NUMBER_CHARS
    case Str(_) => c == '\"'
    case Arr(_) => c == '['
    case Obj(_) => c == '{'
  }

  lemma RenderStarts(j: Json)
    requires Valid(j)
    ensures Render(j) != [] && StartsLike(Render(j)[0], j)
  {
    hide Quote, Comma;
    if j.Str? { QuoteStarts(j.s); }
  }

  lemma QuoteStarts(s: string)
    ensures Quote(s) != [] && Quote(s)[0] == '\"'
  {
  }

  lemma NumberNotCut(x: string, y: string, r: string, s: string)
    requires x + r == y + s && Stops(r)
    requires forall i :: 0 <= i < |y| ==> y[i] in NUMBER_CHARS
    ensures |y| <= |x|
  {
    var t := x + r;
    assert forall i :: 0 <= i < |y| ==> t[i] == y[i];
    assert r != [] ==> t[|x|] == r[0];
  }

  lemma NumbersApart(x: string, y: string, r: string, s: string)
    requires x + r == y + s && Stops(r) && Stops(s)
    requires forall i :: 0 <= i < |x| ==> x[i] in NUMBER_CHARS
    requires forall i :: 0 <= i < |y| ==> y[i] in NUMBER_CHARS
    ensures x == y && r == s
  {
    NumberNotCut(x, y, r, s);
    NumberNotCut(y, x, s, r);
    assert (x + r)[..|x|] == x && (y + s)[..|y|] == y;
    assert (x + r)[|x|..] == r && (y + s)[|y|..] == s;
  }

  /** What follows the first part of a comma-separated list closed by `close`. */
  function After(parts: seq<string>, close: char, r: string): string
    requires parts != []
  {
    if |parts| == 1 then [close] + r else [','] + (Comma(parts[1..]) + [close] + r)
  }

  lemma Regroup(a: string, b: string, c: string, d: string, e: string)
    ensures a + b + c + d + e == a + (b + (c + d + e))
  {
  }

  lemma CommaSplits(parts: seq<string>, close: char, r: string)
    requires parts != []
    ensures Comma(parts) + [close] + r == parts[0] + After(parts, close, r)
  {
    if |parts| == 1 {
      assert parts[0] + [close] + r == parts[0] + ([close] + r);
    } else {
      var rest := Comma(parts[1..]);
      assert Comma(parts) == parts[0] + "," + rest;
      hide Comma;
      Regroup(parts[0], ",", rest, [close], r);
    }
  }

  /** A list's text shows whether it has a first part. */
  lemma CommaStarts(parts: seq<string>, close: char, r: string)
    requires parts != [] ==> parts[0] != [] && parts[0][0] != close
    ensures (Comma(parts) + [close] + r)[0] == close <==> parts == []
    ensures parts == [] ==> Comma(parts) + [close] + r == [close] + r
  {
    if parts != [] { CommaSplits(parts, close, r); }
  }

  lemma AfterAlike(ps: seq<string>, qs: seq<string>, close: char, r: string, s: string)
    requires ps != [] && qs != [] && close != ','
    requires After(ps, close, r) == After(qs, close, s)
    ensures |ps| == 1 <==> |qs| == 1
    ensures |ps| == 1 ==> r == s
    ensures |ps| > 1 ==> Comma(ps[1..]) + [close] + r == Comma(qs[1..]) + [close] + s
  {
    var p := if |ps| == 1 then r else Comma(ps[1..]) + [close] + r;
    var q := if |qs| == 1 then s else Comma(qs[1..]) + [close] + s;
    hide Comma;
    SameTail(if |ps| == 1 then close else ',', if |qs| == 1 then close else ',', p, q);
  }

  /** No rendered value is the beginning of another, up to what can follow a value. */
  lemma {:induction false} RenderInjective(a: Json, b: Json, r: string, s: string)
    requires Valid(a) && Whole(a) && Valid(b) && Whole(b) && Stops(r) && Stops(s)
    requires Render(a) + r == Render(b) + s
    ensures a == b && r == s
    decreases a
  {
    hide Quote, Comma, Stops;
    RenderStarts(a);
    RenderStarts(b);
    var x, y := Render(a) + r, Render(b) + s;
    assert x[0] == Render(a)[0] && y[0] == Render(b)[0];
    SameKind(a, b, x[0]);
    hide StartsLike;
    match a {
      case Null => assert x[4..] == r && y[4..] == s;
      case Bool(_) => assert x[|Render(a)|..] == r && y[|Render(b)|..] == s;
      case Num(text) => NumbersApart(text, b.text, r, s);
      case Str(text) => QuoteInjective(text, b.s, r, s);
      case Arr(items) =>
        assert x == ['['] + (Comma(RenderItems(items)) + [']'] + r);
        assert y == ['['] + (Comma(RenderItems(b.items)) + [']'] + s);
        SameTail('[', '[', Comma(RenderItems(items)) + [']'] + r, Comma(RenderItems(b.items)) + [']'] + s);
        ItemsInjective(items, b.items, r, s);
      case Obj(fs) =>
        var p, q := Comma(Labelled(RenderFields(fs))), Comma(Labelled(RenderFields(b.fields)));
        assert x == ['{'] + (p + ['}'] + r);
        assert y == ['{'] + (q + ['}'] + s);
        SameTail('{', '{', p + ['}'] + r, q + ['}'] + s);
        FieldsInjective(fs, b.fields, r, s);
    }
  }

  lemma {:induction false} ItemsInjective(xs: seq<Json>, ys: seq<Json>, r: string, s: string)
    requires forall i :: 0 <= i < |xs| ==> Valid(xs[i]) && Whole(xs[i])
    requires forall i :: 0 <= i < |ys| ==> Valid(ys[i]) && Whole(ys[i])
    requires Comma(RenderItems(xs)) + [']'] + r == Comma(RenderItems(ys)) + [']'] + s
    ensures xs == ys && r == s
    decreases xs
  {
    var ps, qs := RenderItems(xs), RenderItems(ys);
    if xs != [] { RenderStarts(xs[0]); }
    if ys != [] { RenderStarts(ys[0]); }
    CommaStarts(ps, ']', r);
    CommaStarts(qs, ']', s);
    hide Comma, Render;
    if xs == [] {
      SameTail(']', ']', r, s);
    } else {
      CommaSplits(ps, ']', r);
      CommaSplits(qs, ']', s);
      RenderInjective(xs[0], ys[0], After(ps, ']', r), After(qs, ']', s));
      AfterAlike(ps, qs, ']', r, s);
      hide Valid, Whole, Stops, StartsLike;
      if |xs| > 1 { ItemsInjective(xs[1..], ys[1..], r, s); }
      assert xs == [xs[0]] + xs[1..] && ys == [ys[0]] + ys[1..];
    }
  }

  lemma {:induction false} FieldsInjective(fs: Fields, gs: Fields, r: string, s: string)
    requires forall i :: 0 <= i < |fs| ==> Valid(fs[i].value) && Whole(fs[i].value)
    requires forall i :: 0 <= i < |gs| ==> Valid(gs[i].value) && Whole(gs[i].value)
    requires Comma(Labelled(RenderFields(fs))) + ['}'] + r == Comma(Labelled(RenderFields(gs))) + ['}'] + s
    ensures fs == gs && r == s
    decreases fs
  {
    var ps, qs := Labelled(RenderFields(fs)), Labelled(RenderFields(gs));
    if fs != [] { QuoteStarts(fs[0].key); }
    if gs != [] { QuoteStarts(gs[0].key); }
    hide Quote, Render;
    CommaStarts(ps, '}', r);
    CommaStarts(qs, '}', s);
    hide Comma;
    if fs == [] {
      SameTail('}', '}', r, s);
    } else {
      CommaSplits(ps, '}', r);
      CommaSplits(qs, '}', s);
      MemberInjective(fs[0], gs[0], After(ps, '}', r), After(qs, '}', s));
      AfterAlike(ps, qs, '}', r, s);
      hide Valid, Whole, Stops, StartsLike;
      if |fs| > 1 { FieldsInjective(fs[1..], gs[1..], r, s); }
      assert fs == [fs[0]] + fs[1..] && gs == [gs[0]] + gs[1..];
    }
  }

  lemma {:induction false} MemberInjective(m: Member<Json>, n: Member<Json>, r: string, s: string)
    requires Valid(m.value) && Whole(m.value) && Valid(n.value) && Whole(n.value) && Stops(r) && Stops(s)
    requires Quote(m.key) + ":" + Render(m.value) + r == Quote(n.key) + ":" + Render(n.value) + s
    ensures m == n && r == s
    decreases m
  {
    var p, q := Render(m.value) + r, Render(n.value) + s;
    hide Quote, Render;
    assert Quote(m.key) + ":" + Render(m.value) + r == Quote(m.key) + ([':'] + p);
    assert Quote(n.key) + ":" + Render(n.value) + s == Quote(n.key) + ([':'] + q);
    QuoteInjective(m.key, n.key, [':'] + p, [':'] + q);
    SameTail(':', ':', p, q);
    RenderInjective(m.value, n.value, r, s);
  }

  lemma SameKind(a: Json, b: Json, c: char)
    requires StartsLike(c, a) && StartsLike(c, b) && Whole(a) && Whole(b)
    ensures a.Null? <==> b.Null?
    ensures a.Bool? <==> b.Bool?
    ensures a.Bool? ==> a == b
    ensures a.Num? <==> b.Num?
    ensures a.Str? <==> b.Str?
    ensures a.Arr? <==> b.Arr?
    ensures a.Obj? <==> b.Obj?
  {
  }
}
