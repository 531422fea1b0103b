/** The canonical rendering of a JSON value, and when two values render alike. */
module JsonCanonical {
  import opened JsonTree

  type Fields = seq<Member<Json>>

  // ---------- values ----------

  function Keys<T>(fs: seq<Member<T>>): set<string> { set i | 0 <= i < |fs| :: fs[i].key }

  predicate DistinctKeys<T>(fs: seq<Member<T>>) { forall i, j :: 0 <= i < j < |fs| ==> fs[i].key != fs[j].key }

  /** Property lookup: `undefined` when the key is absent. */
  function Get(fs: Fields, key: string): Json {
    if fs == [] then Missing else if fs[0].key == key then fs[0].value else Get(fs[1..], key)
  }

  const NUMBER_CHARS := {'0', '1', '2', '3', '4', '5', '6', '7', '8', '9', '-', '+', '.', 'e', 'E'}

  /** A value `JSON.parse` can give, or `undefined`, all the way down. */
  predicate Valid(j: Json) {
    match j
    case Num(text) => text != [] && forall i :: 0 <= i < |text| ==> text[i] in NUMBER_CHARS
    case Arr(items) => forall i :: 0 <= i < |items| ==> Valid(items[i])
    case Obj(fs) => DistinctKeys(fs) && forall i :: 0 <= i < |fs| ==> Valid(fs[i].value)
    case _ => true
  }

  /** Nothing in it is `undefined`. */
  predicate Whole(j: Json) {
    match j
    case Missing => false
    case Arr(items) => forall i :: 0 <= i < |items| ==> Whole(items[i])
    case Obj(fs) => forall i :: 0 <= i < |fs| ==> Whole(fs[i].value)
    case _ => true
  }

  /** `isDeepStrictEqual`: key order does not matter. */
  predicate DeepEqual(a: Json, b: Json)
    decreases a
  {
    match a
    case Arr(items) => b.Arr? && |items| == |b.items| && forall i :: 0 <= i < |items| ==> DeepEqual(items[i], b.items[i])
    case Obj(fs) =>
      b.Obj? && Keys(fs) == Keys(b.fields)
      && forall i :: 0 <= i < |fs| ==> DeepEqual(fs[i].value, Get(b.fields, fs[i].key))
    case _ => a == b
  }

  // ---------- rendering ----------

  function HexDigit(n: nat): char
    requires n < 16
  {
    "0123456789abcdef"[n]
  }

  /** `JSON.stringify` of one character inside a string. */
  function Escape(c: char): string {
    if c == '\"' then "\\\""
    else if c == '\\' then "\\\\"
    else if c == '\n' then "\\n"
    else if c == '\r' then "\\r"
    else if c == '\t' then "\\t"
    else if c as int == 8 then "\\b"
    else if c as int == 12 then "\\f"
    else if c as int < 32 then ['\\', 'u', '0', '0', HexDigit(c as int / 16), HexDigit(c as int % 16)]
    else [c]
  }

  function Escaped(s: string): string { if s == [] then [] else Escape(s[0]) + Escaped(s[1..]) }

  function Quote(s: string): string { ['\"'] + Escaped(s) + ['\"'] }

  const MARKER := Obj([Member("$boxlite", Str("missing"))])

  /** JSON text with the keys in the order they are in; a missing value renders as the marker. */
  function Render(j: Json): string {
    match j
    case Missing => "{" + ("\"$boxlite\"" + ":" + "\"missing\"") + "}"
    case Null => "null"
    case Bool(b) => if b then "true" else "false"
    case Num(text) => text
    case Str(s) => Quote(s)
    case Arr(items) => "[" + Comma(RenderItems(items)) + "]"
    case Obj(fs) => "{" + Comma(Labelled(RenderFields(fs))) + "}"
  }

  function RenderItems(items: seq<Json>): seq<string> {
    if items == [] then [] else [Render(items[0])] + RenderItems(items[1..])
  }

  function RenderFields(fs: Fields): seq<Member<string>> {
    if fs == [] then [] else [Member(fs[0].key, Render(fs[0].value))] + RenderFields(fs[1..])
  }

  /** `join(',')`. */
  function Comma(parts: seq<string>): string {
    if parts == [] then "" else if |parts| == 1 then parts[0] else parts[0] + "," + Comma(parts[1..])
  }

  function Labelled(fs: seq<Member<string>>): seq<string> {
    if fs == [] then [] else [Quote(fs[0].key) + ":" + fs[0].value] + Labelled(fs[1..])
  }

  // ---------- sorting keys ----------

  /** Characters in the order of their UTF-16 code units. */
  function Rank(c: char): int {
    if 0xE000 <= c as int <= 0xFFFF then c as int + 0x200000 else c as int
  }

  /** `Array.prototype.sort` order on strings. */
  predicate AtMost(a: string, b: string) {
    a == [] || (b != [] && (Rank(a[0]) < Rank(b[0]) || (a[0] == b[0] && AtMost(a[1..], b[1..]))))
  }

  function Insert<T>(m: Member<T>, fs: seq<Member<T>>): seq<Member<T>> {
    if fs == [] || AtMost(m.key, fs[0].key) then [m] + fs else [fs[0]] + Insert(m, fs[1..])
  }

  function Sort<T>(fs: seq<Member<T>>): seq<Member<T>> {
    if fs == [] then [] else Insert(fs[0], Sort(fs[1..]))
  }

  /** `canonicalJson`: each object's keys are sorted before they are rendered. */
  function Canonical(j: Json): string {
    match j
    case Arr(items) => "[" + Comma(CanonicalItems(items)) + "]"
    case Obj(fs) => "{" + Comma(Labelled(Sort(CanonicalFields(fs)))) + "}"
    case _ => Render(j)
  }

  function CanonicalItems(items: seq<Json>): seq<string> {
    if items == [] then [] else [Canonical(items[0])] + CanonicalItems(items[1..])
  }

  function CanonicalFields(fs: Fields): seq<Member<string>> {
    if fs == [] then [] else [Member(fs[0].key, Canonical(fs[0].value))] + CanonicalFields(fs[1..])
  }

  // ---------- the same value with every object's keys sorted ----------

  function Norm(j: Json): Json {
    match j
    case Arr(items) => Arr(NormItems(items))
    case Obj(fs) => Obj(Sort(NormFields(fs)))
    case _ => j
  }

  function NormItems(items: seq<Json>): seq<Json> {
    if items == [] then [] else [Norm(items[0])] + NormItems(items[1..])
  }

  function NormFields(fs: Fields): Fields {
    if fs == [] then [] else [Member(fs[0].key, Norm(fs[0].value))] + NormFields(fs[1..])
  }

  // ---------- the value a reader of the text would see ----------

  /** The marker in place of everything missing. */
  function Plain(j: Json): Json {
    match j
    case Missing => MARKER
    case Arr(items) => Arr(PlainItems(items))
    case Obj(fs) => Obj(PlainFields(fs))
    case _ => j
  }

  function PlainItems(items: seq<Json>): seq<Json> {
    if items == [] then [] else [Plain(items[0])] + PlainItems(items[1..])
  }

  function PlainFields(fs: Fields): Fields {
    if fs == [] then [] else [Member(fs[0].key, Plain(fs[0].value))] + PlainFields(fs[1..])
  }
}
