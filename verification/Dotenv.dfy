/** Setting a key in a dotenv file, against what the parser of such files then reads. */
module Dotenv {
  import opened Prelude

  // ---------- text ----------

  predicate IsSpace(c: char) {
    var n := c as int;
    9 <= n <= 13 || 0x1C <= n <= 0x20 || n == 0x85 || n == 0xA0 || n == 0x1680 || 0x2000 <= n <= 0x200A
    || n == 0x2028 || n == 0x2029 || n == 0x202F || n == 0x205F || n == 0x3000
  }

  predicate IsDoubleQuote(c: char) { c == '\"' }

  predicate IsSingleQuote(c: char) { c == '\'' }

  function StripRight(s: string, drop: char -> bool): string {
    if s == [] || !drop(s[|s| - 1]) then s else StripRight(s[..|s| - 1], drop)
  }

  function StripLeft(s: string, drop: char -> bool): string {
    if s == [] || !drop(s[0]) then s else StripLeft(s[1..], drop)
  }

  function Strip(s: string, drop: char -> bool): string { StripLeft(StripRight(s, drop), drop) }

  /** Where a line ends, for `splitlines`; a carriage return is a newline by the time a file is read. */
  predicate IsBreak(c: char) {
    var n := c as int;
    10 <= n <= 13 || 0x1C <= n <= 0x1E || n == 0x85 || n == 0x2028 || n == 0x2029
  }

  predicate BreakFree(s: string) { forall i :: 0 <= i < |s| ==> !IsBreak(s[i]) }

  /** `read_text`: every newline convention read as `\n`. */
  function ReadText(s: string): string {
    if s == [] then []
    else if s[0] == '\r' then ['\n'] + ReadText(if |s| > 1 && s[1] == '\n' then s[2..] else s[1..])
    else [s[0]] + ReadText(s[1..])
  }

  /** The text up to the first line break. */
  function FirstLine(s: string): string { if s == [] || IsBreak(s[0]) then [] else [s[0]] + FirstLine(s[1..]) }

  lemma {:induction false} FirstLineIsPrefix(s: string)
    ensures FirstLine(s) <= s && BreakFree(FirstLine(s))
    ensures |FirstLine(s)| < |s| ==> IsBreak(s[|FirstLine(s)|])
  {
    if s != [] && !IsBreak(s[0]) { FirstLineIsPrefix(s[1..]); }
  }

  function SplitLines(s: string): seq<string>
    decreases |s|
  {
    if s == [] then [] else
      FirstLineIsPrefix(s);
      var line := FirstLine(s);
      [line] + (if |line| < |s| then SplitLines(s[|line| + 1..]) else [])
  }

  /** The lines of a file, none if it is not there. */
  function Lines(file: Option<string>): seq<string> {
    match file
    case None => []
    case Some(text) => SplitLines(ReadText(text))
  }

  /** `"\n".join(lines) + "\n"`, for at least one line. */
  function Unlines(lines: seq<string>): string { if lines == [] then [] else lines[0] + ['\n'] + Unlines(lines[1..]) }

  // ---------- parsing ----------

  function Before(s: string, c: char): string { if s == [] || s[0] == c then [] else [s[0]] + Before(s[1..], c) }

  predicate Exported(key: string) { |key| >= 7 && key[..6] == "export" && key[6] in {' ', '\t'} }

  function CleanValue(s: string): string { Strip(Strip(Strip(s, IsSpace), IsDoubleQuote), IsSingleQuote) }

  function CleanKey(s: string): string {
    var key := Strip(s, IsSpace);
    if Exported(key) then Strip(key[6..], IsSpace) else key
  }

  /** The key and value a line binds. */
  function Binding(line: string): Option<(string, string)> {
    var s := Strip(line, IsSpace);
    if s == [] || s[0] == '#' || '=' !in s then None else
      BeforeIsPrefix(s, '=');
      var key := CleanKey(Before(s, '='));
      if key == [] then None else Some((key, CleanValue(s[|Before(s, '=')| + 1..])))
  }

  lemma {:induction false} BeforeIsPrefix(s: string, c: char)
    ensures Before(s, c) <= s && c !in Before(s, c)
    ensures c in s ==> |Before(s, c)| < |s| && s[|Before(s, c)|] == c
  {
    if s != [] && s[0] != c { BeforeIsPrefix(s[1..], c); }
  }

  function ParseLines(lines: seq<string>): map<string, string> {
    if lines == [] then map[] else
      var env := ParseLines(lines[..|lines| - 1]);
      match Binding(lines[|lines| - 1])
      case None => env
      case Some(kv) => env[kv.0 := kv.1]
  }

  /** `_parse_dotenv`. */
  function Parse(file: Option<string>): map<string, string> { ParseLines(Lines(file)) }

  // ---------- setting ----------

  function Assignment(key: string, value: string): string { key + "=" + value }

  predicate Assigns(line: string, key: string) { key + "=" <= line }

  function Replaced(lines: seq<string>, key: string, value: string): seq<string> {
    if lines == [] then [] else
      Replaced(lines[..|lines| - 1], key, value)
      + [if Assigns(lines[|lines| - 1], key) then Assignment(key, value) else lines[|lines| - 1]]
  }

  predicate Found(lines: seq<string>, key: string) { exists i :: 0 <= i < |lines| && Assigns(lines[i], key) }

  function SetLines(lines: seq<string>, key: string, value: string): seq<string> {
    Replaced(lines, key, value) + (if Found(lines, key) then [] else [Assignment(key, value)])
  }

  /** `_set_env_kv`: the text of the file afterwards. */
  function Set(file: Option<string>, key: string, value: string): Option<string> {
    Some(Unlines(SetLines(Lines(file), key, value)))
  }

  // ---------- stripping ----------

  lemma {:induction false} StripRightStops(a: string, b: string, drop: char -> bool)
    requires a != [] && !drop(a[|a| - 1])
    ensures StripRight(a + b, drop) == a + StripRight(b, drop)
  {
    if b == [] {
      assert a + b == a;
    } else if drop(b[|b| - 1]) {
      assert (a + b)[..|a + b| - 1] == a + b[..|b| - 1];
      StripRightStops(a, b[..|b| - 1], drop);
    }
  }

  lemma {:induction false} StripRightTwice(s: string, drop: char -> bool)
    ensures StripRight(StripRight(s, drop), drop) == StripRight(s, drop)
    ensures StripRight(s, drop) <= s
  {
    if s != [] && drop(s[|s| - 1]) { StripRightTwice(s[..|s| - 1], drop); }
  }

  lemma {:induction false} StripLeftKeepsEnd(s: string, drop: char -> bool)
    requires s == [] || !drop(s[|s| - 1])
    ensures StripLeft(s, drop) == [] || !drop(StripLeft(s, drop)[|StripLeft(s, drop)| - 1])
    ensures StripLeft(s, drop) == [] || !drop(StripLeft(s, drop)[0])
    ensures |StripLeft(s, drop)| <= |s| && forall c :: c in StripLeft(s, drop) ==> c in s
  {
    if s != [] && drop(s[0]) { StripLeftKeepsEnd(s[1..], drop); }
  }

  lemma {:induction false} StripRightEnd(s: string, drop: char -> bool)
    ensures StripRight(s, drop) == [] || !drop(StripRight(s, drop)[|StripRight(s, drop)| - 1])
  {
    if s != [] && drop(s[|s| - 1]) { StripRightEnd(s[..|s| - 1], drop); }
  }

  /** Nothing to drop at either end. */
  predicate Tight(s: string, drop: char -> bool) { s == [] || (!drop(s[0]) && !drop(s[|s| - 1])) }

  lemma StripIsTight(s: string, drop: char -> bool)
    ensures Tight(Strip(s, drop), drop) && |Strip(s, drop)| <= |s| && forall c :: c in Strip(s, drop) ==> c in s
    ensures Tight(s, drop) ==> Strip(s, drop) == s
    ensures Strip(StripRight(s, drop), drop) == Strip(s, drop)
  {
    StripRightEnd(s, drop);
    StripRightTwice(s, drop);
    StripLeftKeepsEnd(StripRight(s, drop), drop);
  }

  // ---------- what a line binds ----------

  /** A key that an assignment written by the program binds as it is. */
  predicate PlainKey(key: string) {
    key != [] && Tight(key, IsSpace) && '=' !in key && key[0] != '#' && !Exported(key)
  }

  lemma {:induction false} BeforeKey(key: string, rest: string)
    requires '=' !in key
    ensures Before(key + "=" + rest, '=') == key
  {
    if key == [] {
      assert (key + "=" + rest)[0] == '=';
    } else {
      assert (key + "=" + rest)[1..] == key[1..] + "=" + rest;
      BeforeKey(key[1..], rest);
    }
  }

  lemma StrippedAssignment(key: string, rest: string)
    requires key != [] && Tight(key, IsSpace)
    ensures Strip(key + "=" + rest, IsSpace) == key + "=" + StripRight(rest, IsSpace)
  {
    assert !IsSpace('=');
    StripRightStops(key + "=", rest, IsSpace);
    assert (key + "=" + StripRight(rest, IsSpace))[0] == key[0];
  }

  /** A line that begins with a plain key and `=` binds that key. */
  lemma AssignmentBinds(key: string, rest: string)
    requires PlainKey(key)
    ensures Binding(key + "=" + rest) == Some((key, CleanValue(rest)))
  {
    StrippedAssignment(key, rest);
    var tail := StripRight(rest, IsSpace);
    var s := key + "=" + tail;
    BeforeKey(key, tail);
    StripIsTight(key, IsSpace);
    StripIsTight(rest, IsSpace);
    assert s[|key| + 1..] == tail;
    assert s[0] == key[0] && s[|key|] == '=';
    hide Strip, StripRight, IsSpace;
  }

  lemma AssignsBinds(line: string, key: string)
    requires PlainKey(key) && Assigns(line, key)
    ensures Binding(line).Some? && Binding(line).value.0 == key
  {
    var rest := line[|key| + 1..];
    assert line == key + "=" + rest;
    AssignmentBinds(key, rest);
  }

  lemma BoundIsPlain(key: string, value: string)
    requires Binding(Assignment(key, value)).Some? && Binding(Assignment(key, value)).value.0 == key
    ensures PlainKey(key)
  {
    var s := Strip(Assignment(key, value), IsSpace);
    BeforeIsPrefix(s, '=');
    var k := Strip(Before(s, '='), IsSpace);
    StripIsTight(Before(s, '='), IsSpace);
    StripIsTight(k[if Exported(k) then 6 else 0..], IsSpace);
    assert forall c :: c in k[if Exported(k) then 6 else 0..] ==> c in k;
    assert k[0..] == k;
    assert key != [] && Tight(key, IsSpace) && '=' !in key;
    StrippedAssignment(key, value);
    BeforeKey(key, StripRight(value, IsSpace));
    StripIsTight(key, IsSpace);
    assert s[0] == key[0];
  }

  /** Conversely, only a plain key is bound as it is, and only a clean value. */
  lemma OnlyPlainBinds(key: string, value: string)
    ensures Binding(Assignment(key, value)) == Some((key, value)) <==> PlainKey(key) && CleanValue(value) == value
  {
    hide Binding, CleanValue, PlainKey;
    if Binding(Assignment(key, value)) == Some((key, value)) { BoundIsPlain(key, value); }
    if PlainKey(key) { AssignmentBinds(key, value); }
  }

  // ---------- the line that decides ----------

  predicate Binds(line: string, key: string) { Binding(line).Some? && Binding(line).value.0 == key }

  /** The last line that binds the key. */
  function Winner(lines: seq<string>, key: string): Option<string> {
    if lines == [] then None
    else if Binds(lines[|lines| - 1], key) then Some(lines[|lines| - 1])
    else Winner(lines[..|lines| - 1], key)
  }

  lemma {:induction false} WinnerBinds(lines: seq<string>, key: string)
    ensures Winner(lines, key).Some? ==> Binds(Winner(lines, key).value, key)
  {
    hide Binding;
    if lines != [] && !Binds(lines[|lines| - 1], key) { WinnerBinds(lines[..|lines| - 1], key); }
  }

  /** What the parser reads for a key is what its last line binds. */
  lemma {:induction false} ParsesWinner(lines: seq<string>, key: string)
    ensures key in ParseLines(lines) <==> Winner(lines, key).Some?
    ensures key in ParseLines(lines) ==>
      Binds(Winner(lines, key).value, key) && ParseLines(lines)[key] == Binding(Winner(lines, key).value).value.1
  {
    hide Binding;
    WinnerBinds(lines, key);
    if lines != [] { ParsesWinner(lines[..|lines| - 1], key); }
  }

  function AfterReplacing(winner: Option<string>, key: string, value: string): Option<string> {
    match winner
    case None => None
    case Some(line) => Some(if Assigns(line, key) then Assignment(key, value) else line)
  }

  lemma {:induction false} ReplacedWinner(lines: seq<string>, key: string, value: string, other: string)
    requires PlainKey(key)
    ensures other != key ==> Winner(Replaced(lines, key, value), other) == Winner(lines, other)
    ensures other == key ==> Winner(Replaced(lines, key, value), key) == AfterReplacing(Winner(lines, key), key, value)
  {
    if lines != [] {
      var last := lines[|lines| - 1];
      ReplacedWinner(lines[..|lines| - 1], key, value, other);
      AssignmentBinds(key, value);
      if Assigns(last, key) { AssignsBinds(last, key); }
      hide Binding, PlainKey, Assigns, Assignment;
      var out := Replaced(lines, key, value);
      assert out[..|out| - 1] == Replaced(lines[..|lines| - 1], key, value);
    }
  }

  /** The file has a `key=` line, but a later line spells the key another way. */
  predicate Shadowed(lines: seq<string>, key: string) {
    Found(lines, key) && Winner(lines, key).Some? && !Assigns(Winner(lines, key).value, key)
  }

  lemma {:induction false} FoundHasWinner(lines: seq<string>, key: string)
    requires PlainKey(key) && Found(lines, key)
    ensures Winner(lines, key).Some?
  {
    hide Binding, PlainKey, Assigns;
    var i :| 0 <= i < |lines| && Assigns(lines[i], key);
    AssignsBinds(lines[i], key);
    if i < |lines| - 1 {
      assert lines[..|lines| - 1][i] == lines[i];
      FoundHasWinner(lines[..|lines| - 1], key);
    }
  }

  lemma WinnerAppended(lines: seq<string>, line: string, key: string)
    ensures Winner(lines + [line], key) == if Binds(line, key) then Some(line) else Winner(lines, key)
  {
    hide Binds;
    assert (lines + [line])[..|lines|] == lines;
  }

  /** The line that decides after the key is set. */
  lemma SetWinner(lines: seq<string>, key: string, value: string, other: string)
    requires PlainKey(key)
    ensures Winner(SetLines(lines, key, value), other) ==
      if other != key || Shadowed(lines, key) then Winner(lines, other) else Some(Assignment(key, value))
  {
    ReplacedWinner(lines, key, value, other);
    AssignmentBinds(key, value);
    if Found(lines, key) {
      FoundHasWinner(lines, key);
      hide Binding, PlainKey, Assigns, Assignment, Winner;
      assert Replaced(lines, key, value) + [] == Replaced(lines, key, value);
    } else {
      hide Binding, PlainKey, Assigns, Winner;
      WinnerAppended(Replaced(lines, key, value), Assignment(key, value), other);
    }
  }

  lemma ParsedAlike(p: seq<string>, q: seq<string>)
    requires forall key :: Winner(p, key) == Winner(q, key)
    ensures ParseLines(p) == ParseLines(q)
  {
    hide ParseLines, Winner, Binds, Binding;
    forall key ensures key in ParseLines(p) <==> key in ParseLines(q) { ParsesWinner(p, key); ParsesWinner(q, key); }
    forall key | key in ParseLines(p) ensures ParseLines(p)[key] == ParseLines(q)[key] {
      ParsesWinner(p, key);
      ParsesWinner(q, key);
    }
  }

  // ---------- files and lines ----------

  lemma {:induction false} ReadHasNoReturn(s: string)
    ensures forall i :: 0 <= i < |ReadText(s)| ==> ReadText(s)[i] != '\r'
    decreases |s|
  {
    if s != [] {
      if s[0] == '\r' && |s| > 1 && s[1] == '\n' { ReadHasNoReturn(s[2..]); } else { ReadHasNoReturn(s[1..]); }
    }
  }

  lemma {:induction false} ReadAsIs(s: string)
    requires '\r' !in s
    ensures ReadText(s) == s
  {
    if s != [] {
      assert s[0] in s && forall c :: c in s[1..] ==> c in s;
      ReadAsIs(s[1..]);
    }
  }

  lemma {:induction false} SplitIsBreakFree(s: string)
    ensures forall i :: 0 <= i < |SplitLines(s)| ==> BreakFree(SplitLines(s)[i])
    decreases |s|
  {
    if s != [] {
      FirstLineIsPrefix(s);
      hide IsBreak, FirstLine;
      var line := FirstLine(s);
      if |line| < |s| { SplitIsBreakFree(s[|line| + 1..]); }
    }
  }

  lemma {:induction false} FirstLineStops(line: string, rest: string)
    requires BreakFree(line) && rest != [] && IsBreak(rest[0])
    ensures FirstLine(line + rest) == line
  {
    hide IsBreak;
    if line == [] {
      assert line + rest == rest;
    } else {
      assert (line + rest)[1..] == line[1..] + rest;
      FirstLineStops(line[1..], rest);
    }
  }

  predicate AllBreakFree(lines: seq<string>) { forall i :: 0 <= i < |lines| ==> BreakFree(lines[i]) }

  lemma {:induction false} SplitUnlines(lines: seq<string>)
    requires AllBreakFree(lines)
    ensures SplitLines(Unlines(lines)) == lines && '\r' !in Unlines(lines)
  {
    if lines != [] {
      var line, rest := lines[0], Unlines(lines[1..]);
      SplitUnlines(lines[1..]);
      assert lines == [line] + lines[1..];
      var text := line + (['\n'] + rest);
      assert Unlines(lines) == text;
      FirstLineStops(line, ['\n'] + rest);
      assert '\r' !in line by { assert IsBreak('\r'); }
      hide IsBreak, FirstLine;
      assert text[|line| + 1..] == rest;
      if rest == [] { UnlinesNonempty(lines[1..]); }
    }
  }

  lemma UnlinesNonempty(lines: seq<string>)
    ensures Unlines(lines) == [] ==> lines == []
  {
  }

  /** Written lines read back as they are. */
  lemma LinesRoundTrip(lines: seq<string>)
    requires AllBreakFree(lines)
    ensures Lines(Some(Unlines(lines))) == lines
  {
    hide SplitLines, ReadText, Unlines;
    SplitUnlines(lines);
    ReadAsIs(Unlines(lines));
  }

  lemma AssignmentBreakFree(key: string, value: string)
    requires BreakFree(key) && BreakFree(value)
    ensures BreakFree(Assignment(key, value))
  {
    assert !IsBreak('=');
  }

  lemma {:induction false} ReplacedBreakFree(lines: seq<string>, key: string, value: string)
    requires AllBreakFree(lines) && BreakFree(Assignment(key, value))
    ensures AllBreakFree(Replaced(lines, key, value))
  {
    hide BreakFree, Assigns, Assignment;
    if lines != [] { ReplacedBreakFree(lines[..|lines| - 1], key, value); }
  }

  lemma LinesBreakFree(file: Option<string>)
    ensures AllBreakFree(Lines(file))
  {
    hide BreakFree, SplitLines, ReadText;
    if file.Some? { SplitIsBreakFree(ReadText(file.value)); }
  }

  /** The lines of the file after a key is set. */
  lemma SetLinesOf(file: Option<string>, key: string, value: string)
    requires BreakFree(key) && BreakFree(value)
    ensures AllBreakFree(SetLines(Lines(file), key, value))
    ensures Lines(Set(file, key, value)) == SetLines(Lines(file), key, value)
  {
    hide BreakFree, Lines, Unlines, Replaced, Assignment, Found;
    LinesBreakFree(file);
    AssignmentBreakFree(key, value);
    ReplacedBreakFree(Lines(file), key, value);
    LinesRoundTrip(SetLines(Lines(file), key, value));
  }

  // ---------- the results ----------

  /**
   After a plain key is set, every other key reads as before; the key itself reads as the
   value, unless a later line that spells the key another way still decides.
   */
  lemma SetThenParse(file: Option<string>, key: string, value: string)
    requires PlainKey(key) && BreakFree(key) && BreakFree(value)
    ensures var before, after := Parse(file), Parse(Set(file, key, value));
      && (forall k :: k != key ==> (k in after <==> k in before))
      && (forall k :: k != key && k in before && k in after ==> after[k] == before[k])
      && key in after
      && (Shadowed(Lines(file), key) ==> key in before && after[key] == before[key])
      && (!Shadowed(Lines(file), key) ==> after[key] == CleanValue(value))
  {
    SetLinesOf(file, key, value);
    AssignmentBinds(key, value);
    hide Lines, SetLines, Set, ParseLines, PlainKey, BreakFree, CleanValue, Binding, Assignment;
    var p, q := Lines(file), SetLines(Lines(file), key, value);
    forall k
      ensures k != key ==> (k in ParseLines(q) <==> k in ParseLines(p))
      ensures k != key && k in ParseLines(p) && k in ParseLines(q) ==> ParseLines(q)[k] == ParseLines(p)[k] {
      SetWinner(p, key, value, k);
      ParsesWinner(p, k);
      ParsesWinner(q, k);
    }
    SetWinner(p, key, value, key);
    ParsesWinner(p, key);
    ParsesWinner(q, key);
  }

  /** A clean value reads back exactly when no such line decides, or that line already binds it. */
  lemma SetReadsBack(file: Option<string>, key: string, value: string)
    requires PlainKey(key) && BreakFree(key) && BreakFree(value) && CleanValue(value) == value
    ensures key in Parse(Set(file, key, value))
    ensures Parse(Set(file, key, value))[key] == value <==>
      !Shadowed(Lines(file), key) || (key in Parse(file) && Parse(file)[key] == value)
  {
    hide Parse, Set, CleanValue, Shadowed, PlainKey, BreakFree;
    SetThenParse(file, key, value);
  }

  lemma SpaceBefore(key: string)
    requires key != [] && Tight(key, IsSpace)
    ensures Strip(" " + key, IsSpace) == key
  {
    var s := " " + key;
    assert s[|s| - 1] == key[|key| - 1] && s[1..] == key;
    assert StripRight(s, IsSpace) == s;
    assert IsSpace(s[0]) && StripLeft(key, IsSpace) == key;
  }

  /** A line with a leading `export` binds the key after it. */
  lemma ExportBinds(key: string, value: string)
    requires PlainKey(key)
    ensures Binding("export " + key + "=" + value) == Some((key, CleanValue(value)))
  {
    var long, tail := "export " + key, StripRight(value, IsSpace);
    var s := long + "=" + tail;
    assert long[0] == 'e' && long[|long| - 1] == key[|key| - 1];
    assert Tight(long, IsSpace);
    StrippedAssignment(long, value);
    BeforeKey(long, tail);
    StripIsTight(value, IsSpace);
    ExportDropped(key);
    hide Strip, StripRight, IsSpace;
    assert s[|long| + 1..] == tail && s[0] == 'e' && s[|long|] == '=';
  }

  lemma ExportDropped(key: string)
    requires key != [] && Tight(key, IsSpace)
    ensures CleanKey("export " + key) == key
  {
    var long := "export " + key;
    assert long[0] == 'e' && long[|long| - 1] == key[|key| - 1];
    StripIsTight(long, IsSpace);
    assert long[..6] == "export" && long[6..] == " " + key;
    SpaceBefore(key);
  }

  lemma ExportAssignsNot(key: string, value: string)
    requires PlainKey(key)
    ensures !Assigns("export " + key + "=" + value, key)
  {
    var line := "export " + key + "=" + value;
    BeforeKey("export " + key, value);
    if Assigns(line, key) {
      assert line == key + "=" + line[|key| + 1..];
      BeforeKey(key, line[|key| + 1..]);
    }
  }

  /** A later `export` line keeps deciding: the new value is written and not read. */
  lemma ExportLineShadows(key: string, was: string, kept: string, value: string)
    requires PlainKey(key)
    ensures var lines := [Assignment(key, was), "export " + key + "=" + kept];
      && Shadowed(lines, key) && key in ParseLines(SetLines(lines, key, value))
      && ParseLines(SetLines(lines, key, value))[key] == CleanValue(kept)
  {
    var first, second := Assignment(key, was), "export " + key + "=" + kept;
    var lines := [first, second];
    ExportBinds(key, kept);
    ExportAssignsNot(key, kept);
    assert Assigns(lines[0], key);
    SetWinner(lines, key, value, key);
    ParsesWinner(SetLines(lines, key, value), key);
    hide Binding, Assigns, Assignment;
    assert Winner(lines, key) == Some(second) by { assert lines[|lines| - 1] == second; }
  }

  lemma {:induction false} ReplacedTwice(lines: seq<string>, key: string, value: string)
    ensures Replaced(Replaced(lines, key, value), key, value) == Replaced(lines, key, value)
  {
    if lines != [] {
      ReplacedTwice(lines[..|lines| - 1], key, value);
      var out := Replaced(lines, key, value);
      assert out[..|out| - 1] == Replaced(lines[..|lines| - 1], key, value);
    }
  }

  lemma {:induction false} ReplacedFinds(lines: seq<string>, key: string, value: string, other: string)
    requires PlainKey(key) && PlainKey(other)
    ensures Found(Replaced(lines, key, value), other) <==> Found(lines, other)
  {
    if lines != [] {
      var rest, last := lines[..|lines| - 1], lines[|lines| - 1];
      ReplacedFinds(rest, key, value, other);
      if Assigns(last, key) { AssignsOne(last, key, other); }
      AssignsOne(Assignment(key, value), key, other);
      hide PlainKey, Assigns, Assignment, Replaced;
      assert lines == rest + [last];
      FoundLast(rest, last, other);
      FoundLast(Replaced(rest, key, value), if Assigns(last, key) then Assignment(key, value) else last, other);
      assert Replaced(lines, key, value) == Replaced(rest, key, value)
        + [if Assigns(last, key) then Assignment(key, value) else last] by { ReplacedLast(lines, key, value); }
    }
  }

  lemma ReplacedLast(lines: seq<string>, key: string, value: string)
    requires lines != []
    ensures Replaced(lines, key, value) == Replaced(lines[..|lines| - 1], key, value)
      + [if Assigns(lines[|lines| - 1], key) then Assignment(key, value) else lines[|lines| - 1]]
  {
  }

  lemma FoundLast(rest: seq<string>, last: string, key: string)
    ensures Found(rest + [last], key) <==> Found(rest, key) || Assigns(last, key)
  {
    hide Assigns;
    var lines := rest + [last];
    if Found(rest, key) {
      var i :| 0 <= i < |rest| && Assigns(rest[i], key);
      assert lines[i] == rest[i];
    }
    assert lines[|rest|] == last;
  }

  /** A line assigns at most one plain key. */
  lemma AssignsOne(line: string, key: string, other: string)
    requires PlainKey(key) && PlainKey(other) && Assigns(line, key)
    ensures Assigns(line, other) <==> other == key
  {
    AssignsBinds(line, key);
    hide Binding;
    if Assigns(line, other) { AssignsBinds(line, other); }
  }

  /** Setting a key to the same value again changes nothing. */
  lemma SetIsIdempotent(file: Option<string>, key: string, value: string)
    requires BreakFree(key) && BreakFree(value)
    ensures Set(Set(file, key, value), key, value) == Set(file, key, value)
  {
    SetLinesOf(file, key, value);
    hide Lines, Unlines;
    var lines := Lines(file);
    SetLinesTwice(lines, key, value);
  }

  lemma SetLinesTwice(lines: seq<string>, key: string, value: string)
    ensures SetLines(SetLines(lines, key, value), key, value) == SetLines(lines, key, value)
  {
    ReplacedTwice(lines, key, value);
    var once := SetLines(lines, key, value);
    var out := Replaced(lines, key, value);
    if Found(lines, key) {
      assert once == out;
      ReplacedFound(lines, key, value);
      assert Replaced(once, key, value) + [] == Replaced(once, key, value);
    } else {
      assert once[..|once| - 1] == out && once[|once| - 1] == Assignment(key, value);
      assert Assigns(once[|once| - 1], key);
      assert Found(once, key);
    }
  }

  lemma {:induction false} ReplacedFound(lines: seq<string>, key: string, value: string)
    requires Found(lines, key)
    ensures Found(Replaced(lines, key, value), key)
  {
    var rest := lines[..|lines| - 1];
    var out := Replaced(lines, key, value);
    if Assigns(lines[|lines| - 1], key) {
      assert Assigns(out[|out| - 1], key);
    } else {
      var i :| 0 <= i < |lines| && Assigns(lines[i], key);
      assert rest[i] == lines[i];
      ReplacedFound(rest, key, value);
      var j :| 0 <= j < |Replaced(rest, key, value)| && Assigns(Replaced(rest, key, value)[j], key);
      assert out[j] == Replaced(rest, key, value)[j];
    }
  }

  /** Setting one key leaves open whether another one is shadowed. */
  lemma ShadowedAlike(lines: seq<string>, key: string, value: string, other: string)
    requires PlainKey(key) && PlainKey(other) && key != other
    ensures Shadowed(SetLines(lines, key, value), other) <==> Shadowed(lines, other)
  {
    ReplacedFinds(lines, key, value, other);
    SetWinner(lines, key, value, other);
    AssignsOne(Assignment(key, value), key, other);
    hide PlainKey, Assigns, Assignment, Winner;
    FoundLast(Replaced(lines, key, value), Assignment(key, value), other);
    assert Replaced(lines, key, value) + [] == Replaced(lines, key, value);
  }

  /** Settings of two plain keys commute, as parsed. */
  lemma SetsCommute(file: Option<string>, k: string, v: string, l: string, w: string)
    requires PlainKey(k) && BreakFree(k) && BreakFree(v) && PlainKey(l) && BreakFree(l) && BreakFree(w) && k != l
    ensures Parse(Set(Set(file, k, v), l, w)) == Parse(Set(Set(file, l, w), k, v))
  {
    SetLinesOf(file, k, v);
    SetLinesOf(Set(file, k, v), l, w);
    SetLinesOf(file, l, w);
    SetLinesOf(Set(file, l, w), k, v);
    hide Lines, SetLines, Set, ParseLines, PlainKey, BreakFree, Winner, Assignment, Shadowed;
    var lines := Lines(file);
    var p, q := SetLines(SetLines(lines, k, v), l, w), SetLines(SetLines(lines, l, w), k, v);
    ShadowedAlike(lines, k, v, l);
    ShadowedAlike(lines, l, w, k);
    forall key ensures Winner(p, key) == Winner(q, key) {
      SetWinner(lines, k, v, key);
      SetWinner(SetLines(lines, k, v), l, w, key);
      SetWinner(lines, l, w, key);
      SetWinner(SetLines(lines, l, w), k, v, key);
    }
    ParsedAlike(p, q);
  }

  // ---------- what lines mean ----------

  predicate All(s: string, p: char -> bool) { forall i :: 0 <= i < |s| ==> p(s[i]) }

  lemma {:induction false} StripLeftAll(a: string, v: string, drop: char -> bool)
    requires All(a, drop) && (v == [] || !drop(v[0]))
    ensures StripLeft(a + v, drop) == v
  {
    if a == [] {
      assert a + v == v;
    } else {
      assert (a + v)[1..] == a[1..] + v;
      StripLeftAll(a[1..], v, drop);
    }
  }

  lemma {:induction false} StripRightAll(v: string, b: string, drop: char -> bool)
    requires All(b, drop)
    ensures StripRight(v + b, drop) == StripRight(v, drop)
  {
    if b == [] {
      assert v + b == v;
    } else {
      assert (v + b)[..|v + b| - 1] == v + b[..|b| - 1];
      StripRightAll(v, b[..|b| - 1], drop);
    }
  }

  /** Stripping takes off what surrounds the text, and no more. */
  lemma StripAround(a: string, v: string, b: string, drop: char -> bool)
    requires All(a, drop) && All(b, drop) && Tight(v, drop)
    ensures Strip(a + v + b, drop) == v
  {
    StripRightAll(a + v, b, drop);
    if v == [] {
      assert a + v == [] + a;
      StripRightAll([], a, drop);
    } else {
      assert (a + v)[|a + v| - 1] == v[|v| - 1];
      StripLeftAll(a, v, drop);
    }
  }

  lemma SpaceInKey(key: string, b: string)
    requires All(b, IsSpace) && Tight(key, IsSpace) && key != []
    ensures Strip(key + b, IsSpace) == key
  {
    assert [] + key + b == key + b;
    StripAround([], key, b, IsSpace);
  }

  lemma LineStripped(a: string, left: string, rest: string)
    requires All(a, IsSpace) && left != [] && !IsSpace(left[0])
    ensures Strip(a + left + "=" + rest, IsSpace) == left + "=" + StripRight(rest, IsSpace)
  {
    assert !IsSpace('=');
    StripRightStops(a + left + "=", rest, IsSpace);
    var v := left + "=" + StripRight(rest, IsSpace);
    assert a + left + "=" + StripRight(rest, IsSpace) == a + v;
    StripLeftAll(a, v, IsSpace);
  }

  /** What stands before the first `=` gives the key. */
  lemma LeftBinds(a: string, left: string, rest: string)
    requires All(a, IsSpace) && left != [] && !IsSpace(left[0]) && left[0] != '#' && '=' !in left && CleanKey(left) != []
    ensures Binding(a + left + "=" + rest) == Some((CleanKey(left), CleanValue(rest)))
  {
    var tail := StripRight(rest, IsSpace);
    LineStripped(a, left, rest);
    BeforeKey(left, tail);
    StripIsTight(rest, IsSpace);
    var s := left + "=" + tail;
    assert s[|left| + 1..] == tail && s[0] == left[0] && s[|left|] == '=';
    hide Strip, StripRight, IsSpace, CleanKey;
  }

  /** Spaces around the line and around the key do not matter. */
  lemma LineBinds(a: string, key: string, b: string, rest: string)
    requires All(a, IsSpace) && All(b, IsSpace) && PlainKey(key)
    ensures Binding(a + key + b + "=" + rest) == Some((key, CleanValue(rest)))
  {
    var left := key + b;
    assert '=' !in b by { assert !IsSpace('='); }
    SpaceInKey(key, b);
    assert a + key + b + "=" + rest == a + left + "=" + rest && left[0] == key[0];
    hide Strip, StripRight, Binding, IsSpace;
    LeftBinds(a, left, rest);
  }

  lemma ExportedKey(gap: string, key: string, b: string)
    requires All(b, IsSpace) && All(gap, IsSpace) && gap != [] && gap[0] in {' ', '\t'} && PlainKey(key)
    ensures CleanKey("export" + gap + key + b) == key
  {
    var long := "export" + gap + key;
    assert long[0] == 'e' && !IsSpace('e') && long[|long| - 1] == key[|key| - 1];
    SpaceInKey(long, b);
    assert long[..6] == "export" && long[6] == gap[0] && long[6..] == gap + key;
    StripAround(gap, key, [], IsSpace);
    assert gap + key + [] == gap + key;
    hide Strip, IsSpace;
  }

  /** A leading `export` and the spaces behind it are dropped from the key. */
  lemma ExportedLineBinds(a: string, gap: string, key: string, b: string, rest: string)
    requires All(a, IsSpace) && All(b, IsSpace) && All(gap, IsSpace) && gap != [] && gap[0] in {' ', '\t'} && PlainKey(key)
    ensures Binding(a + "export" + gap + key + b + "=" + rest) == Some((key, CleanValue(rest)))
  {
    var left := "export" + gap + key + b;
    ExportedKey(gap, key, b);
    assert '=' !in b && '=' !in gap by { assert !IsSpace('='); }
    assert left[0] == 'e' && !IsSpace('e');
    hide Strip, StripRight, Binding, CleanKey, IsSpace;
    assert a + "export" + gap + key + b + "=" + rest == a + left + "=" + rest;
    LeftBinds(a, left, rest);
  }

  /** No `=`, a `#` in front, or nothing before the `=`: the line binds nothing. */
  lemma BindsNothing(a: string, rest: string)
    requires All(a, IsSpace)
    ensures '=' !in rest ==> Binding(a + rest) == None
    ensures Binding(a + "#" + rest) == None
    ensures Binding(a + "=" + rest) == None
  {
    assert '=' !in a by { assert !IsSpace('='); }
    StripIsTight(a + rest, IsSpace);
    FirstStays(a, "#" + rest);
    FirstStays(a, "=" + rest);
    assert a + ("#" + rest) == a + "#" + rest && a + ("=" + rest) == a + "=" + rest;
    assert !IsSpace('#') && !IsSpace('=');
    var s := Strip(a + "=" + rest, IsSpace);
    assert Before(s, '=') == [];
    StripIsTight([], IsSpace);
  }

  lemma FirstStays(a: string, text: string)
    requires All(a, IsSpace) && text != [] && !IsSpace(text[0])
    ensures var s := Strip(a + text, IsSpace); s != [] && s[0] == text[0]
  {
    var head, tail := a + [text[0]], text[1..];
    assert a + text == head + tail;
    StripRightStops(head, tail, IsSpace);
    var v := [text[0]] + StripRight(tail, IsSpace);
    assert head + StripRight(tail, IsSpace) == a + v;
    StripLeftAll(a, v, IsSpace);
  }

  /**
   A value in double or in single quotes, with any spaces around them, is read as what is between
   the quotes, inner spaces included, if that does not begin or end in a quote itself.
   */
  lemma QuotesComeOff(a: string, v: string, b: string)
    requires All(a, IsSpace) && All(b, IsSpace) && Tight(v, IsDoubleQuote) && Tight(v, IsSingleQuote)
    ensures CleanValue(a + ("\"" + v + "\"") + b) == v
    ensures CleanValue(a + ("'" + v + "'") + b) == v
    ensures Tight(v, IsSpace) ==> CleanValue(a + v + b) == v
  {
    var d, q := "\"" + v + "\"", "'" + v + "'";
    StripAround(a, d, b, IsSpace);
    StripAround(a, q, b, IsSpace);
    StripAround("\"", v, "\"", IsDoubleQuote);
    StripAround("'", v, "'", IsSingleQuote);
    StripIsTight(v, IsSingleQuote);
    StripIsTight(v, IsDoubleQuote);
    StripIsTight(q, IsDoubleQuote);
    if Tight(v, IsSpace) { StripAround(a, v, b, IsSpace); }
    hide Strip;
  }

  /** Single quotes come off last: double quotes inside them stay. */
  lemma InnerQuotesStay(v: string)
    ensures CleanValue("'\"" + v + "\"'") == "\"" + v + "\""
  {
    var inner := "\"" + v + "\"";
    var q := "'" + inner + "'";
    assert "'\"" + v + "\"'" == q;
    StripIsTight(q, IsSpace);
    StripIsTight(q, IsDoubleQuote);
    StripAround("'", inner, "'", IsSingleQuote);
    hide Strip;
  }

  /** A file whose lines end in carriage return and newline. */
  function CrlfLines(lines: seq<string>): string {
    if lines == [] then [] else lines[0] + ['\r', '\n'] + CrlfLines(lines[1..])
  }

  lemma {:induction false} CrlfIsNewline(line: string, rest: string)
    requires '\r' !in line
    ensures ReadText(line + (['\r', '\n'] + rest)) == line + (['\n'] + ReadText(rest))
  {
    if line == [] {
      assert line + (['\r', '\n'] + rest) == ['\r', '\n'] + rest;
      assert (['\r', '\n'] + rest)[2..] == rest;
    } else {
      var text := line + (['\r', '\n'] + rest);
      assert text[1..] == line[1..] + (['\r', '\n'] + rest);
      CrlfIsNewline(line[1..], rest);
    }
  }

  lemma {:induction false} CrlfReadsText(lines: seq<string>)
    requires AllBreakFree(lines)
    ensures ReadText(CrlfLines(lines)) == Unlines(lines)
  {
    if lines != [] {
      assert '\r' !in lines[0] by { assert BreakFree(lines[0]) && IsBreak('\r'); }
      CrlfReadsText(lines[1..]);
      CrlfIsNewline(lines[0], CrlfLines(lines[1..]));
      assert CrlfLines(lines) == lines[0] + (['\r', '\n'] + CrlfLines(lines[1..]));
    }
  }

  /** Either convention of ending lines gives the same lines. */
  lemma CrlfReads(lines: seq<string>)
    requires AllBreakFree(lines)
    ensures Lines(Some(CrlfLines(lines))) == lines
  {
    CrlfReadsText(lines);
    SplitUnlines(lines);
    hide ReadText, SplitLines, AllBreakFree;
  }

  // ---------- what setting a key does to the lines ----------

  lemma {:induction false} ReplacedAt(lines: seq<string>, key: string, value: string)
    ensures |Replaced(lines, key, value)| == |lines|
    ensures forall i :: 0 <= i < |lines| ==>
      Replaced(lines, key, value)[i] == if Assigns(lines[i], key) then Assignment(key, value) else lines[i]
  {
    hide Assigns, Assignment;
    if lines != [] { ReplacedAt(lines[..|lines| - 1], key, value); }
  }

  /**
   Line by line: a line that begins with the key and `=` is replaced where it stands, every other
   line stays as it is, and only if there was none such a line is added at the end.
   */
  lemma SetKeepsLines(file: Option<string>, key: string, value: string)
    requires BreakFree(key) && BreakFree(value)
    ensures var before, after := Lines(file), Lines(Set(file, key, value));
      && |before| <= |after| <= |before| + 1
      && (forall i :: 0 <= i < |before| ==>
            after[i] == if key + "=" <= before[i] then key + "=" + value else before[i])
      && (|after| == |before| <==> exists i :: 0 <= i < |before| && key + "=" <= before[i])
      && (|after| == |before| + 1 ==> after[|before|] == key + "=" + value)
  {
    SetLinesOf(file, key, value);
    ReplacedAt(Lines(file), key, value);
    hide Lines, Set, Replaced;
    var lines := Lines(file);
    assert Found(lines, key) <==> exists i :: 0 <= i < |lines| && key + "=" <= lines[i] by {
      assert forall i :: 0 <= i < |lines| ==> (Assigns(lines[i], key) <==> key + "=" <= lines[i]);
    }
  }

  // ---------- the program ----------

  /** `_parse_dotenv`, line by line. */
  method ParseDotenv(file: Option<string>) returns (env: map<string, string>)
    ensures env == Parse(file)
  {
    hide Binding, Lines;
    var lines := Lines(file);
    env := map[];
    for n := 0 to |lines|
      invariant env == ParseLines(lines[..n])
    {
      assert lines[..n + 1][..n] == lines[..n];
      match Binding(lines[n]) {
        case None =>
        case Some(kv) => env := env[kv.0 := kv.1];
      }
    }
    assert lines[..|lines|] == lines;
  }

  /** A file that may be there. */
  class EnvFile {
    var text: Option<string>

    constructor (text: Option<string>)
      ensures this.text == text
    {
      this.text := text;
    }
  }

  /** `_set_env_kv`: replaces every `key=` line, or appends one. */
  method SetEnvKv(file: EnvFile, key: string, value: string)
    modifies file
    ensures file.text == Set(old(file.text), key, value)
  {
    hide Lines, Unlines, Assigns, Assignment;
    var lines := Lines(file.text);
    var out, found := [], false;
    for n := 0 to |lines|
      invariant out == Replaced(lines[..n], key, value)
      invariant found == Found(lines[..n], key) && file.text == old(file.text)
    {
      assert lines[..n + 1] == lines[..n] + [lines[n]] && lines[..n + 1][..n] == lines[..n];
      FoundLast(lines[..n], lines[n], key);
      if Assigns(lines[n], key) {
        out := out + [Assignment(key, value)];
        found := true;
      } else {
        out := out + [lines[n]];
      }
    }
    assert lines[..|lines|] == lines;
    assert out + [] == out;
    if !found { out := out + [Assignment(key, value)]; }
    file.text := Some(Unlines(out));
  }
}
