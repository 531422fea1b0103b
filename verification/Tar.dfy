/** The tar writer of the tmpfs workaround, against a reader of the interchange format. */
module Tar {
  import opened Prelude

  type byte = x: int | 0 <= x < 256

  datatype File = File(name: string, data: seq<byte>)

  /** What a reader finds: the name as bytes, and the data. */
  datatype Entry = Entry(name: seq<byte>, data: seq<byte>)

  function Zeros(n: nat): seq<byte> { seq(n, _ => 0) }

  function Spaces(n: nat): seq<byte> { seq(n, _ => 32) }

  // ---------- text ----------

  function Utf8Char(c: char): seq<byte> {
    var n := c as int;
    if n < 0x80 then [n]
    else if n < 0x800 then [0xC0 + n / 0x40, 0x80 + n % 0x40]
    else if n < 0x10000 then [0xE0 + n / 0x1000, 0x80 + n / 0x40 % 0x40, 0x80 + n % 0x40]
    else [0xF0 + n / 0x40000, 0x80 + n / 0x1000 % 0x40, 0x80 + n / 0x40 % 0x40, 0x80 + n % 0x40]
  }

  function Utf8(s: string): seq<byte> { if s == [] then [] else Utf8Char(s[0]) + Utf8(s[1..]) }

  /** `string.length`: UTF-16 code units. */
  function Units(s: string): nat {
    if s == [] then 0 else (if s[0] as int < 0x10000 then 1 else 2) + Units(s[1..])
  }

  /** As many whole characters as fit in `limit` bytes. */
  function Fit(s: string, limit: nat): seq<byte> {
    if s == [] || |Utf8Char(s[0])| > limit then []
    else Utf8Char(s[0]) + Fit(s[1..], limit - |Utf8Char(s[0])|)
  }

  function NameBytes(name: string): seq<byte> { Fit(name, if Units(name) < 100 then Units(name) else 100) }

  /** `toString(8)`. */
  function Octal(n: nat): seq<byte> {
    if n < 8 then [48 + n] else Octal(n / 8) + [48 + n % 8]
  }

  /** `padStart(width, '0')`. */
  function PadStart(s: seq<byte>, width: nat): seq<byte> {
    if |s| >= width then s else seq(width - |s|, _ => 48) + s
  }

  // ---------- the archive ----------

  const MODE := Utf8("0000644\0")
  const ID := Utf8("0000000\0")
  const MTIME := Utf8("00000000000\0")

  function NameField(name: string): (field: seq<byte>)
    ensures |field| == 100
  {
    FitIsShort(name, if Units(name) < 100 then Units(name) else 100);
    NameBytes(name) + Zeros(100 - |NameBytes(name)|)
  }

  lemma {:induction false} FitIsShort(s: string, limit: nat)
    ensures |Fit(s, limit)| <= limit
  {
    hide Utf8Char;
    if s != [] && |Utf8Char(s[0])| <= limit { FitIsShort(s[1..], limit - |Utf8Char(s[0])|); }
  }

  lemma PadIsLong(s: seq<byte>, width: nat)
    ensures |PadStart(s, width)| >= width
  {
  }

  function SizeField(size: nat): (field: seq<byte>)
    ensures |field| == 12
  {
    PadIsLong(Octal(size), 11);
    (PadStart(Octal(size), 11) + [0])[..12]
  }

  function SumField(sum: nat): (field: seq<byte>)
    ensures |field| == 8
  {
    PadIsLong(Octal(sum), 6);
    (PadStart(Octal(sum), 6) + [0, 32])[..8]
  }

  /** The header up to its checksum. */
  function Front(name: string, size: nat): (front: seq<byte>)
    ensures |front| == 148
  {
    NameField(name) + MODE + ID + ID + SizeField(size) + MTIME
  }

  function Back(): seq<byte> { [48] + Zeros(355) }

  function Sum(s: seq<byte>): nat { if s == [] then 0 else Sum(s[..|s| - 1]) + s[|s| - 1] }

  function Header(name: string, size: nat): (header: seq<byte>)
    ensures |header| == 512
  {
    Front(name, size) + SumField(Sum(Front(name, size) + Spaces(8) + Back())) + Back()
  }

  function Padded(n: nat): nat { (n + 511) / 512 * 512 }

  function Archive(files: seq<File>): seq<byte> {
    if files == [] then Zeros(1024) else
      var f := files[0];
      Header(f.name, |f.data|) + (f.data + Zeros(Padded(|f.data|) - |f.data|)) + Archive(files[1..])
  }

  // ---------- a reader ----------

  /** The octal digits at the start of a numeric field. */
  function Digits(s: seq<byte>): seq<byte> {
    if s == [] || !(48 <= s[0] < 56) then [] else [s[0]] + Digits(s[1..])
  }

  function Value(ds: seq<byte>): int {
    if ds == [] then 0 else 8 * Value(ds[..|ds| - 1]) + ds[|ds| - 1] - 48
  }

  /** A numeric field: octal digits closed by a NUL or a space. */
  function ParseField(s: seq<byte>): Option<int> {
    var ds := Digits(s);
    if |ds| < |s| && s[|ds|] in {0, 32} then Some(Value(ds)) else None
  }

  function UpToNul(s: seq<byte>): seq<byte> { if s == [] || s[0] == 0 then [] else [s[0]] + UpToNul(s[1..]) }

  /** The size a header states, when its checksum and its type are right. */
  function HeaderSize(h: seq<byte>): Option<nat>
    requires |h| == 512
  {
    var size, sum := ParseField(h[124..136]), ParseField(h[148..156]);
    if size.Some? && size.value >= 0 && sum == Some(Sum(h[..148] + Spaces(8) + h[156..])) && h[156] == 48
    then Some(size.value) else None
  }

  /** The entries up to the two zero blocks that end an archive. */
  function Read(a: seq<byte>): Option<seq<Entry>>
    decreases |a|
  {
    if |a| < 1024 then None
    else if a[..1024] == Zeros(1024) then Some([])
    else
      var h := a[..512];
      var size := HeaderSize(h);
      if size.None? || |a| < 512 + Padded(size.value) then None
      else
        PaddedIsEnough(size.value);
        var data := a[512..512 + size.value];
        var rest := Read(a[512 + Padded(size.value)..]);
        if rest.None? then None else Some([Entry(UpToNul(h[..100]), data)] + rest.value)
  }

  lemma PaddedIsEnough(n: nat)
    ensures n <= Padded(n) < n + 512 && Padded(n) % 512 == 0
  {
  }

  // ---------- numbers survive ----------

  function Pow8(w: nat): nat { if w == 0 then 1 else 8 * Pow8(w - 1) }

  predicate AllDigits(ds: seq<byte>) { forall i :: 0 <= i < |ds| ==> 48 <= ds[i] < 56 }

  lemma {:induction false} OctalReads(n: nat)
    ensures AllDigits(Octal(n)) && Value(Octal(n)) == n && Octal(n) != []
  {
    if n < 8 {
      assert [48 + n][..0] == [];
    } else {
      OctalReads(n / 8);
      var ds: seq<byte> := Octal(n / 8) + [48 + n % 8];
      assert ds[..|ds| - 1] == Octal(n / 8);
    }
  }

  lemma {:induction false} OctalFits(n: nat, w: nat)
    requires w > 0 && n < Pow8(w)
    ensures |Octal(n)| <= w
  {
    if n >= 8 {
      assert Pow8(1) == 8 * Pow8(0) == 8;
      OctalFits(n / 8, w - 1);
    }
  }

  lemma {:induction false} LeadingZeros(k: nat, ds: seq<byte>)
    ensures Value(seq(k, _ => 48) + ds) == Value(ds)
    decreases |ds|, k
  {
    var zs: seq<byte> := seq(k, _ => 48);
    if ds != [] {
      assert (zs + ds)[..|zs + ds| - 1] == zs + ds[..|ds| - 1];
      LeadingZeros(k, ds[..|ds| - 1]);
    } else if k > 0 {
      var fewer: seq<byte> := seq(k - 1, _ => 48);
      assert (zs + ds)[..k - 1] == fewer + ds;
      LeadingZeros(k - 1, ds);
    } else {
      assert zs + ds == ds;
    }
  }

  lemma {:induction false} DigitsStop(ds: seq<byte>, rest: seq<byte>)
    requires AllDigits(ds) && rest != [] && !(48 <= rest[0] < 56)
    ensures Digits(ds + rest) == ds
  {
    if ds == [] {
      assert ds + rest == rest;
    } else {
      assert (ds + rest)[1..] == ds[1..] + rest;
      DigitsStop(ds[1..], rest);
    }
  }

  /** A number that fits its field reads back. */
  lemma FieldReads(n: nat, w: nat, tail: seq<byte>)
    requires w > 0 && n < Pow8(w) && tail != [] && tail[0] == 0
    ensures |PadStart(Octal(n), w)| == w
    ensures ParseField(PadStart(Octal(n), w) + tail) == Some(n)
  {
    OctalReads(n);
    OctalFits(n, w);
    var ds := PadStart(Octal(n), w);
    hide Octal, Pow8;
    LeadingZeros(w - |Octal(n)|, Octal(n));
    DigitsStop(ds, tail);
  }

  lemma SizeReads(size: nat)
    requires size < Pow8(11)
    ensures ParseField(SizeField(size)) == Some(size)
  {
    FieldReads(size, 11, [0]);
    assert (PadStart(Octal(size), 11) + [0])[..12] == PadStart(Octal(size), 11) + [0];
  }

  lemma SumReads(sum: nat)
    requires sum < Pow8(6)
    ensures ParseField(SumField(sum)) == Some(sum)
  {
    FieldReads(sum, 6, [0, 32]);
    assert (PadStart(Octal(sum), 6) + [0, 32])[..8] == PadStart(Octal(sum), 6) + [0, 32];
  }

  lemma {:induction false} SumIsBounded(s: seq<byte>)
    ensures Sum(s) <= 255 * |s|
  {
    if s != [] { SumIsBounded(s[..|s| - 1]); }
  }

  // ---------- headers survive ----------

  lemma Middle(a: seq<byte>, b: seq<byte>, c: seq<byte>)
    ensures (a + b + c)[..|a|] == a && (a + b + c)[|a|..|a| + |b|] == b && (a + b + c)[|a| + |b|..] == c
  {
  }

  lemma FrontFields(name: string, size: nat)
    ensures Front(name, size)[..100] == NameField(name) && Front(name, size)[124..136] == SizeField(size)
  {
    hide NameField, SizeField, Utf8;
    var a, b, c := NameField(name), MODE + ID + ID, SizeField(size);
    assert |MODE + ID + ID| == 24 by { ConstantLengths(); }
    ConstantLengths();
    assert Front(name, size) == a + b + (c + MTIME);
    Middle(a, b, c + MTIME);
    Middle(a + b, c, MTIME);
    assert a + b + (c + MTIME) == (a + b) + c + MTIME;
  }

  lemma ConstantLengths()
    ensures |MODE| == 8 && |ID| == 8 && |MTIME| == 12
  {
  }

  lemma {:induction false} UpToNulStops(s: seq<byte>, k: nat)
    ensures UpToNul(s + Zeros(k)) == UpToNul(s)
  {
    if s == [] {
      assert s + Zeros(k) == Zeros(k);
    } else {
      assert (s + Zeros(k))[1..] == s[1..] + Zeros(k);
      UpToNulStops(s[1..], k);
    }
  }

  lemma HeaderSlices(front: seq<byte>, field: seq<byte>, back: seq<byte>)
    requires |front| == 148 && |field| == 8 && |back| == 356
    ensures var h := front + field + back;
      && h[..148] == front && h[148..156] == field && h[156..] == back && h[156] == back[0]
      && h[124..136] == front[124..136] && h[..100] == front[..100]
  {
  }

  lemma NameReads(name: string, size: nat)
    ensures UpToNul(Front(name, size)[..100]) == UpToNul(NameBytes(name))
  {
    FrontFields(name, size);
    hide Front, UpToNul, NameBytes;
    NameIsShort(name);
    UpToNulStops(NameBytes(name), 100 - |NameBytes(name)|);
  }

  lemma NameIsShort(name: string)
    ensures |NameBytes(name)| <= 100
  {
    FitIsShort(name, if Units(name) < 100 then Units(name) else 100);
  }

  lemma HeaderReads(name: string, size: nat)
    requires size < Pow8(11)
    ensures HeaderSize(Header(name, size)) == Some(size)
    ensures UpToNul(Header(name, size)[..100]) == UpToNul(NameBytes(name))
    ensures Header(name, size)[156] == 48
  {
    hide Front, SumField, SizeField, Sum, ParseField, UpToNul, NameBytes, NameField;
    var front := Front(name, size);
    var sum := Sum(front + Spaces(8) + Back());
    FrontFields(name, size);
    NameReads(name, size);
    SizeReads(size);
    SumIsBounded(front + Spaces(8) + Back());
    SumReads(sum);
    HeaderSlices(front, SumField(sum), Back());
  }

  lemma ConstantBytes()
    ensures MODE == [48, 48, 48, 48, 54, 52, 52, 0]
    ensures ID == [48, 48, 48, 48, 48, 48, 48, 0]
    ensures MTIME == [48, 48, 48, 48, 48, 48, 48, 48, 48, 48, 48, 0]
  {
    hide Utf8;
    AsciiBytes("0000644\0");
    AsciiBytes("0000000\0");
    AsciiBytes("00000000000\0");
  }

  lemma {:induction false} AsciiBytes(s: string)
    requires forall i :: 0 <= i < |s| ==> s[i] as int < 0x80
    ensures |Utf8(s)| == |s| && forall i :: 0 <= i < |s| ==> Utf8(s)[i] == s[i] as int
  {
    if s != [] { AsciiBytes(s[1..]); }
  }

  lemma FrontShape(n: seq<byte>, m: seq<byte>, i: seq<byte>, z: seq<byte>, t: seq<byte>)
    requires |n| == 100 && |m| == |i| == 8 && |z| == |t| == 12
    ensures var f := n + m + i + i + z + t;
      f[100..108] == m && f[108..116] == i && f[116..124] == i && f[136..148] == t
  {
  }

  lemma FrontParts(name: string, size: nat)
    ensures var f := Front(name, size);
      f[100..108] == MODE && f[108..116] == ID && f[116..124] == ID && f[136..148] == MTIME
  {
    ConstantLengths();
    hide NameField, SizeField, Utf8;
    FrontShape(NameField(name), MODE, ID, SizeField(size), MTIME);
  }

  /**
   Byte for byte: mode 0644, owner and group 0, time 0, a regular file, the name closed by NULs,
   eleven octal digits of size closed by a NUL, and NULs up to the end.
   */
  lemma HeaderFields(name: string, size: nat)
    requires size < Pow8(11)
    ensures var h := Header(name, size);
      && h[100..108] == [48, 48, 48, 48, 54, 52, 52, 0]
      && h[108..116] == h[116..124] == [48, 48, 48, 48, 48, 48, 48, 0]
      && h[136..148] == [48, 48, 48, 48, 48, 48, 48, 48, 48, 48, 48, 0]
      && h[156] == 48 && (forall k :: 157 <= k < 512 ==> h[k] == 0)
      && |NameBytes(name)| <= 100 && h[..|NameBytes(name)|] == NameBytes(name)
      && (forall k :: |NameBytes(name)| <= k < 100 ==> h[k] == 0)
      && AllDigits(h[124..135]) && Value(h[124..135]) == size && h[135] == 0
      && AllDigits(h[148..154]) && Value(h[148..154]) == Sum(h[..148] + Spaces(8) + h[156..]) && h[154] == 0 && h[155] == 32
  {
    hide Front, SumField, SizeField, Sum, Utf8, NameBytes;
    var front := Front(name, size);
    var field := SumField(Sum(front + Spaces(8) + Back()));
    FrontParts(name, size);
    FrontFields(name, size);
    ConstantBytes();
    NameIsShort(name);
    SizeDigits(size);
    HeaderSlices(front, field, Back());
    var h := Header(name, size);
    assert h == front + field + Back();
    hide Header, NameField;
    assert h[124..135] == h[124..136][..11] && h[135] == h[124..136][11];
    assert h[..100] == NameField(name);
    NameFieldIs(name);
    assert h[..|NameBytes(name)|] == h[..100][..|NameBytes(name)|];
    SliceAt(h, front, field);
    SumIsBounded(front + Spaces(8) + Back());
    SumDigits(Sum(front + Spaces(8) + Back()));
    assert h[148..154] == h[148..156][..6] && h[154] == h[148..156][6] && h[155] == h[148..156][7];
  }

  lemma SumDigits(sum: nat)
    requires sum < Pow8(6)
    ensures AllDigits(SumField(sum)[..6]) && Value(SumField(sum)[..6]) == sum && SumField(sum)[6] == 0 && SumField(sum)[7] == 32
  {
    OctalReads(sum);
    OctalFits(sum, 6);
    hide Octal, Pow8;
    LeadingZeros(6 - |Octal(sum)|, Octal(sum));
    var ds := PadStart(Octal(sum), 6);
    assert (ds + [0, 32])[..8] == ds + [0, 32] && SumField(sum)[..6] == ds;
  }

  lemma SliceAt(h: seq<byte>, front: seq<byte>, field: seq<byte>)
    requires |front| == 148 && |field| == 8 && |h| == 512 && h == front + field + Back()
    ensures h[100..108] == front[100..108] && h[108..116] == front[108..116] && h[116..124] == front[116..124]
    ensures h[136..148] == front[136..148]
    ensures forall k :: 157 <= k < 512 ==> h[k] == 0
  {
  }

  lemma NameFieldIs(name: string)
    ensures |NameBytes(name)| <= 100 && NameField(name)[..|NameBytes(name)|] == NameBytes(name)
    ensures forall k :: |NameBytes(name)| <= k < 100 ==> NameField(name)[k] == 0
  {
    NameIsShort(name);
    hide NameBytes;
  }

  function Bits(b: int, mark: int): int { b - mark }

  /** The code point that a character's bytes stand for. */
  function CodePoint(bs: seq<byte>): int
    requires 1 <= |bs| <= 4
  {
    match |bs|
    case 1 => bs[0]
    case 2 => Bits(bs[0], 0xC0) * 0x40 + Bits(bs[1], 0x80)
    case 3 => Bits(bs[0], 0xE0) * 0x1000 + Bits(bs[1], 0x80) * 0x40 + Bits(bs[2], 0x80)
    case _ => Bits(bs[0], 0xF0) * 0x40000 + Bits(bs[1], 0x80) * 0x1000 + Bits(bs[2], 0x80) * 0x40 + Bits(bs[3], 0x80)
  }

  /** A character's bytes stand for it; only ASCII takes one byte, and continuation bytes are marked. */
  lemma Utf8CharReads(c: char)
    ensures 1 <= |Utf8Char(c)| <= 4 && CodePoint(Utf8Char(c)) == c as int
    ensures |Utf8Char(c)| == 1 <==> c as int < 0x80
    ensures forall i :: 0 < i < |Utf8Char(c)| ==> 0x80 <= Utf8Char(c)[i] < 0xC0
  {
    var n := c as int;
    SixBits(n);
    SixBits(n / 0x40);
    SixBits(n / 0x1000);
    assert n / 0x40 / 0x40 == n / 0x1000 && n / 0x1000 / 0x40 == n / 0x40000;
  }

  lemma SixBits(n: nat)
    ensures n == n / 0x40 * 0x40 + n % 0x40
  {
  }

  lemma SizeDigits(size: nat)
    requires size < Pow8(11)
    ensures AllDigits(SizeField(size)[..11]) && Value(SizeField(size)[..11]) == size && SizeField(size)[11] == 0
  {
    OctalReads(size);
    OctalFits(size, 11);
    hide Octal, Pow8;
    LeadingZeros(11 - |Octal(size)|, Octal(size));
    var ds := PadStart(Octal(size), 11);
    assert (ds + [0])[..12] == ds + [0] && SizeField(size)[..11] == ds;
  }

  /** The name field holds as many whole characters as its bound in bytes lets through. */
  lemma NameIsCut(name: string) returns (k: nat)
    ensures k <= |name| && NameBytes(name) == Utf8(name[..k])
    ensures var limit := if Units(name) < 100 then Units(name) else 100;
      |NameBytes(name)| <= limit && (k < |name| ==> |NameBytes(name)| + |Utf8Char(name[k])| > limit)
  {
    k := FitIsCut(name, if Units(name) < 100 then Units(name) else 100);
  }

  lemma {:induction false} FitIsCut(s: string, limit: nat) returns (k: nat)
    ensures k <= |s| && Fit(s, limit) == Utf8(s[..k]) && |Fit(s, limit)| <= limit
    ensures k < |s| ==> |Fit(s, limit)| + |Utf8Char(s[k])| > limit
  {
    hide Utf8Char;
    k := 0;
    if s != [] && |Utf8Char(s[0])| <= limit {
      var rest := FitIsCut(s[1..], limit - |Utf8Char(s[0])|);
      k := rest + 1;
      assert s[..k][1..] == s[1..][..rest];
    }
  }

  /** Each file's data is followed by NULs up to the next multiple of 512, and the archive by 1024 of them. */
  lemma {:induction false} NulsFollow(files: seq<File>)
    ensures files != [] ==>
      var n := |files[0].data|;
      && |Archive(files)| >= 512 + Padded(n) && Padded(n) % 512 == 0 && n <= Padded(n) < n + 512
      && Archive(files)[512..512 + n] == files[0].data
      && (forall k :: 512 + n <= k < 512 + Padded(n) ==> Archive(files)[k] == 0)
      && Archive(files)[512 + Padded(n)..] == Archive(files[1..])
    ensures |Archive(files)| >= 1024 && forall k :: |Archive(files)| - 1024 <= k < |Archive(files)| ==> Archive(files)[k] == 0
  {
    hide Header, Padded;
    if files != [] {
      var f := files[0];
      NulsFollow(files[1..]);
      PaddedIsEnough(|f.data|);
      hide Archive;
      ArchiveUnfolds(files);
      BlockThenRest(Header(f.name, |f.data|), f.data, Padded(|f.data|), Archive(files[1..]));
    }
  }

  lemma BlockThenRest(h: seq<byte>, data: seq<byte>, padded: nat, rest: seq<byte>)
    requires |h| == 512 && |data| <= padded && |rest| >= 1024
    requires forall k :: |rest| - 1024 <= k < |rest| ==> rest[k] == 0
    ensures var a := h + (data + Zeros(padded - |data|)) + rest;
      && |a| == 512 + padded + |rest| && a[512..512 + |data|] == data
      && (forall k :: 512 + |data| <= k < 512 + padded ==> a[k] == 0)
      && a[512 + padded..] == rest
      && (forall k :: |a| - 1024 <= k < |a| ==> a[k] == 0)
  {
  }

  // ---------- the archive reads back ----------

  predicate SizesFit(files: seq<File>) { forall i :: 0 <= i < |files| ==> |files[i].data| < Pow8(11) }

  function Entries(files: seq<File>): seq<Entry> {
    if files == [] then [] else [Entry(UpToNul(NameBytes(files[0].name)), files[0].data)] + Entries(files[1..])
  }

  lemma {:induction false} ArchiveIsBlocks(files: seq<File>)
    ensures |Archive(files)| % 512 == 0 && |Archive(files)| >= 1024
  {
    hide Header, Padded;
    if files != [] {
      ArchiveIsBlocks(files[1..]);
      PaddedIsEnough(|files[0].data|);
    }
  }

  lemma EmptyArchiveReads()
    ensures Read(Archive([])) == Some([])
  {
  }

  /** The reader finds each file's data and the part of its name that fits, in order, checksums right. */
  lemma {:induction false} ArchiveReads(files: seq<File>)
    requires SizesFit(files)
    ensures Read(Archive(files)) == Some(Entries(files))
  {
    hide Header, HeaderSize, UpToNul, NameBytes, Padded, Pow8, Zeros, Archive, Read;
    if files == [] {
      EmptyArchiveReads();
    } else {
      var f := files[0];
      var n := |f.data|;
      ArchiveIsBlocks(files[1..]);
      PaddedIsEnough(n);
      HeaderReads(f.name, n);
      ArchiveReads(files[1..]);
      ArchiveUnfolds(files);
      FirstBlock(Header(f.name, n), f.data, Padded(n), Archive(files[1..]));
      ReadUnfolds(Archive(files), n);
    }
  }

  lemma FirstBlock(h: seq<byte>, data: seq<byte>, padded: nat, rest: seq<byte>)
    requires |h| == 512 && |data| <= padded && |rest| >= 1024 && h[156] == 48
    ensures var a := h + (data + Zeros(padded - |data|)) + rest;
      a[..512] == h && a[512..512 + |data|] == data && a[512 + padded..] == rest && a[..1024] != Zeros(1024)
  {
    var a := h + (data + Zeros(padded - |data|)) + rest;
    assert a[..1024][156] == h[156];
  }

  lemma ArchiveUnfolds(files: seq<File>)
    requires files != []
    ensures var f := files[0];
      Archive(files) == Header(f.name, |f.data|) + (f.data + Zeros(Padded(|f.data|) - |f.data|)) + Archive(files[1..])
  {
    hide Header, Padded;
  }

  lemma ReadUnfolds(a: seq<byte>, n: nat)
    requires |a| >= 1024 && |a| >= 512 + Padded(n) && a[..1024] != Zeros(1024) && HeaderSize(a[..512]) == Some(n)
    requires Read(a[512 + Padded(n)..]).Some? && n <= Padded(n)
    ensures Read(a) == Some([Entry(UpToNul(a[..512][..100]), a[512..512 + n])] + Read(a[512 + Padded(n)..]).value)
  {
    hide HeaderSize, UpToNul, Padded;
  }

  // ---------- which names survive ----------

  /** The name is at most 100 characters, all ASCII and none of them NUL. */
  predicate PlainName(name: string) { |name| <= 100 && forall i :: 0 <= i < |name| ==> 0 < name[i] as int < 0x80 }

  predicate NulFree(s: seq<byte>) { forall i :: 0 <= i < |s| ==> s[i] != 0 }

  lemma {:induction false} UpToNulIsPrefix(s: seq<byte>)
    ensures UpToNul(s) <= s && NulFree(UpToNul(s))
    ensures NulFree(s) ==> UpToNul(s) == s
  {
    if s != [] && s[0] != 0 { UpToNulIsPrefix(s[1..]); }
  }

  lemma {:induction false} Utf8IsLonger(s: string)
    ensures |Utf8(s)| >= Units(s) >= |s|
    ensures |Utf8(s)| == Units(s) ==> forall i :: 0 <= i < |s| ==> s[i] as int < 0x80
  {
    if s != [] { Utf8IsLonger(s[1..]); }
  }

  lemma {:induction false} NulShows(s: string)
    requires NulFree(Utf8(s))
    ensures forall i :: 0 <= i < |s| ==> s[i] as int != 0
  {
    if s != [] {
      var head, tail := Utf8Char(s[0]), Utf8(s[1..]);
      assert (head + tail)[0] == head[0];
      assert (head + tail)[|head|..] == tail;
      NulShows(s[1..]);
    }
  }

  lemma {:induction false} PlainFits(s: string, limit: nat)
    requires |s| <= limit && forall i :: 0 <= i < |s| ==> 0 < s[i] as int < 0x80
    ensures Fit(s, limit) == Utf8(s) && NulFree(Utf8(s)) && Units(s) == |s|
  {
    if s != [] { PlainFits(s[1..], limit - 1); }
  }

  /** A name reads back whole exactly when it is plain: any other is cut short. */
  lemma NameSurvives(name: string)
    ensures UpToNul(NameBytes(name)) == Utf8(name) <==> PlainName(name)
  {
    var limit := if Units(name) < 100 then Units(name) else 100;
    UpToNulIsPrefix(NameBytes(name));
    FitIsShort(name, limit);
    Utf8IsLonger(name);
    if PlainName(name) {
      PlainFits(name, 100);
      PlainFits(name, limit);
    } else if UpToNul(NameBytes(name)) == Utf8(name) {
      NulShows(name);
      assert false;
    }
  }

  function Originals(files: seq<File>): seq<Entry> {
    if files == [] then [] else [Entry(Utf8(files[0].name), files[0].data)] + Originals(files[1..])
  }

  lemma {:induction false} EntriesAlike(files: seq<File>)
    ensures |Entries(files)| == |Originals(files)| == |files|
    ensures Entries(files) == Originals(files) <==> forall i :: 0 <= i < |files| ==> PlainName(files[i].name)
  {
    hide NameBytes, UpToNul, Utf8, PlainName;
    if files != [] {
      NameSurvives(files[0].name);
      EntriesAlike(files[1..]);
      var es, os := Entries(files), Originals(files);
      assert es == [es[0]] + es[1..] && os == [os[0]] + os[1..];
    }
  }

  /** The archive reads back as the files given exactly when every name is plain. */
  lemma TarRoundTrip(files: seq<File>)
    requires SizesFit(files)
    ensures Read(Archive(files)) == Some(Originals(files)) <==> forall i :: 0 <= i < |files| ==> PlainName(files[i].name)
  {
    hide Read, Archive, Entries, Originals, PlainName;
    ArchiveReads(files);
    EntriesAlike(files);
  }

  // ---------- the program ----------

  function Patch(s: seq<byte>, at: nat, text: seq<byte>): (r: seq<byte>)
    requires at + |text| <= |s|
    ensures |r| == |s|
  {
    s[..at] + text + s[at + |text|..]
  }

  lemma PatchNext(done: seq<byte>, text: seq<byte>, n: nat)
    requires |done| + |text| <= n
    ensures Patch(done + Zeros(n - |done|), |done|, text) == (done + text) + Zeros(n - |done| - |text|)
  {
  }

  lemma PatchMiddle(a: seq<byte>, was: seq<byte>, b: seq<byte>, text: seq<byte>)
    requires |text| == |was|
    ensures Patch(a + was + b, |a|, text) == a + text + b
  {
  }

  /** `buffer.write`: the text at `at`, the rest of the buffer as it was. */
  method Write(buffer: array<byte>, text: seq<byte>, at: nat)
    requires at + |text| <= buffer.Length
    modifies buffer
    ensures buffer[..] == Patch(old(buffer[..]), at, text)
  {
    for i := 0 to |text|
      invariant forall k :: 0 <= k < i ==> buffer[at + k] == text[k]
      invariant forall k :: 0 <= k < buffer.Length && !(at <= k < at + i) ==> buffer[k] == old(buffer[k])
    {
      buffer[at + i] := text[i];
    }
  }

  /** The next field, written behind those that are done. */
  method WriteNext(header: array<byte>, ghost done: seq<byte>, text: seq<byte>, at: nat)
    requires header.Length == 512 && at == |done| && at + |text| <= 512 && header[..] == done + Zeros(512 - at)
    modifies header
    ensures header[..] == (done + text) + Zeros(512 - at - |text|)
  {
    hide Patch;
    PatchNext(done, text, 512);
    Write(header, text, at);
  }

  /** The fields before the checksum, written one after another into a zeroed header. */
  method WriteFront(header: array<byte>, name: string, size: nat)
    requires header.Length == 512 && header[..] == Zeros(512)
    modifies header
    ensures header[..] == Front(name, size) + Zeros(364)
  {
    hide NameBytes, SizeField, Utf8, Zeros;
    ConstantLengths();
    NameIsShort(name);
    assert [] + Zeros(512) == Zeros(512);
    WriteNext(header, [], NameBytes(name), 0);
    ghost var field := NameField(name);
    assert header[..] == field + Zeros(412) by { NamePadded(name); }
    WriteNext(header, field, MODE, 100);
    WriteNext(header, field + MODE, ID, 108);
    WriteNext(header, field + MODE + ID, ID, 116);
    WriteNext(header, field + MODE + ID + ID, SizeField(size), 124);
    WriteNext(header, field + MODE + ID + ID + SizeField(size), MTIME, 136);
  }

  lemma NamePadded(name: string)
    ensures |NameBytes(name)| <= 100
    ensures ([] + NameBytes(name)) + Zeros(512 - |NameBytes(name)|) == NameField(name) + Zeros(412)
  {
    NameIsShort(name);
    hide NameBytes;
  }

  /** One header, its checksum taken over itself with spaces in the checksum's place. */
  method MakeHeader(name: string, size: nat) returns (header: array<byte>)
    ensures fresh(header) && header[..] == Header(name, size)
  {
    hide Front, Patch, SumField;
    header := new byte[512](_ => 0);
    assert header[..] == Zeros(512);
    WriteFront(header, name, size);
    ghost var front := Front(name, size);
    assert header[..] == (front + Zeros(8)) + [0] + Zeros(355);
    PatchMiddle(front + Zeros(8), [0], Zeros(355), [48]);
    Write(header, [48], 156);
    assert header[..] == front + Zeros(8) + Back();
    PatchMiddle(front, Zeros(8), Back(), Spaces(8));
    Write(header, Spaces(8), 148);
    var checksum: nat := 0;
    for i := 0 to 512
      invariant checksum == Sum(header[..i]) && header[..] == front + Spaces(8) + Back()
    {
      assert header[..i + 1][..i] == header[..i];
      checksum := checksum + header[i] as int;
    }
    assert header[..512] == header[..];
    PatchMiddle(front, Spaces(8), Back(), SumField(checksum));
    Write(header, SumField(checksum), 148);
  }

  function Joined(blocks: seq<seq<byte>>): seq<byte> {
    if blocks == [] then [] else Joined(blocks[..|blocks| - 1]) + blocks[|blocks| - 1]
  }

  lemma NothingJoined()
    ensures Joined([]) == []
  {
  }

  /** `makeTar`: header and padded data of each file, then the end of the archive. */
  method MakeTar(files: seq<File>) returns (tar: seq<byte>)
    ensures tar == Archive(files)
  {
    hide Header, Padded, Archive, Joined, Patch;
    NothingJoined();
    var blocks: seq<seq<byte>> := [];
    var i := 0;
    assert files[0..] == files;
    while i < |files|
      invariant 0 <= i <= |files| && Joined(blocks) + Archive(files[i..]) == Archive(files)
    {
      var f := files[i];
      var header := MakeHeader(f.name, |f.data|);
      var paddedSize := Padded(|f.data|);
      PaddedIsEnough(|f.data|);
      var dataBlock := new byte[paddedSize](_ => 0);
      PatchNext([], f.data, paddedSize);
      assert dataBlock[..] == [] + Zeros(paddedSize);
      Write(dataBlock, f.data, 0);
      assert dataBlock[..] == f.data + Zeros(paddedSize - |f.data|);
      ArchiveUnfolds(files[i..]);
      assert files[i..][1..] == files[i + 1..];
      JoinedWith(blocks, header[..], dataBlock[..], Archive(files[i + 1..]));
      blocks := blocks + [header[..]];
      blocks := blocks + [dataBlock[..]];
      i := i + 1;
    }
    NoFiles(files[i..]);
    JoinedNext(blocks, Zeros(1024));
    tar := Joined(blocks + [Zeros(1024)]);
  }

  lemma JoinedNext(blocks: seq<seq<byte>>, block: seq<byte>)
    ensures Joined(blocks + [block]) == Joined(blocks) + block
  {
    assert (blocks + [block])[..|blocks|] == blocks;
  }

  lemma JoinedWith(blocks: seq<seq<byte>>, header: seq<byte>, data: seq<byte>, rest: seq<byte>)
    ensures Joined(blocks + [header] + [data]) + rest == Joined(blocks) + (header + data + rest)
  {
    JoinedNext(blocks, header);
    JoinedNext(blocks + [header], data);
  }

  lemma NoFiles(files: seq<File>)
    requires files == []
    ensures Archive(files) == Zeros(1024)
  {
  }
}
