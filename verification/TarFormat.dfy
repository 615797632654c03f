/**
 The accepted subset of the ustar format (`deploy/encrypted_backup.py`), and its writer as the ustar interchange
 format of IEEE Std 1003.1 (utility `pax`) describes it.  A byte is a character below 256.
 */
module TarFormat {
  import opened Prelude

  const ZERO := '\U{0}'

  function Zeros(n: nat): string {
    seq(n, i => ZERO)
  }

  function Pad(size: nat): (n: nat)
    ensures n < 512 && (size + n) % 512 == 0
  {
    (0 - size) % 512
  }

  function Sum(s: string): nat {
    if s == "" then 0 else Sum(s[..|s| - 1]) + s[|s| - 1] as nat
  }

  // ---------- numbers, as the reader's integer parser takes them ----------

  function StripLeft(s: string, blanks: set<char>): string {
    if s != "" && s[0] in blanks then StripLeft(s[1..], blanks) else s
  }

  function StripRight(s: string, blanks: set<char>): string {
    if s != "" && s[|s| - 1] in blanks then StripRight(s[..|s| - 1], blanks) else s
  }

  function Strip(s: string, blanks: set<char>): string {
    StripRight(StripLeft(s, blanks), blanks)
  }

  const WHITE := {' ', '\t', '\n', '\r', '\U{0B}', '\U{0C}'}

  predicate OctalDigit(c: char) {
    '0' <= c <= '7'
  }

  /** Octal digits, with single underscores between them. */
  predicate OctalText(s: string) {
    && s != "" && s[0] != '_' && s[|s| - 1] != '_'
    && (forall k :: 0 <= k < |s| ==> OctalDigit(s[k]) || s[k] == '_')
    && NoTwoUnderscores(s)
  }

  predicate NoTwoUnderscores(s: string) {
    |s| < 2 || ((s[0] != '_' || s[1] != '_') && NoTwoUnderscores(s[1..]))
  }

  function OctalValue(s: string): nat {
    if s == "" then 0
    else if !OctalDigit(s[|s| - 1]) then OctalValue(s[..|s| - 1])
    else 8 * OctalValue(s[..|s| - 1]) + (s[|s| - 1] as int - '0' as int)
  }

  /** `int(s, 8)` of Python: surrounding white space, a sign, `0o` and underscores are accepted. */
  function ParseOctal(s: string): Option<int> {
    SignedOctal(Strip(s, WHITE))
  }

  function SignedOctal(t: string): Option<int> {
    var negative := t != "" && t[0] == '-';
    var u := if t != "" && (t[0] == '-' || t[0] == '+') then t[1..] else t;
    var n := MarkedOctal(u);
    if n.None? then None else Some(if negative then 0 - n.value else n.value)
  }

  function MarkedOctal(u: string): Option<nat> {
    var prefixed := |u| >= 2 && u[0] == '0' && (u[1] == 'o' || u[1] == 'O');
    var v := if prefixed then u[2..] else u;
    var w := if prefixed && v != "" && v[0] == '_' then v[1..] else v;
    if !OctalText(w) then None else Some(OctalValue(w))
  }

  function NumericField(s: string): Option<int> {
    ParseOctal(Strip(s, {' ', ZERO}))
  }

  // ---------- headers ----------

  /** Up to the first zero byte. */
  function UntilZero(s: string): string {
    if s == "" || s[0] == ZERO then "" else [s[0]] + UntilZero(s[1..])
  }

  datatype Header = Header(name: string, size: nat)

  function FullName(prefix: string, name: string): string {
    if prefix != "" then prefix + "/" + name else name
  }

  const MAGIC := ['u', 's', 't', 'a', 'r', ZERO, '0', '0']

  /** A header block that is not all zero; `utf8` says whether bytes are the UTF-8 form of a text. */
  function HeaderOf(h: string, utf8: string -> bool): Option<Header>
    requires |h| == 512
  {
    HeaderFrom(NumericField(h[148..156]), NumericField(h[124..136]), Sum(h[..148]) + 8 * 32 + Sum(h[156..]),
               h[257..265], h[156], UntilZero(h[..100]), UntilZero(h[345..500]), utf8)
  }

  function HeaderFrom(checksum: Option<int>, size: Option<int>, sum: nat, magic: string, kind: char,
                      name: string, prefix: string, utf8: string -> bool): Option<Header>
  {
    if checksum.None? || size.None? then None
    else if checksum.value != sum then None
    else if magic != MAGIC || (kind != ZERO && kind != '0') || size.value < 0 then None
    else if !utf8(name) || !utf8(prefix) then None
    else Some(Header(FullName(prefix, name), size.value))
  }

  // ---------- the writer ----------

  function Octal(n: nat, width: nat): string {
    if width == 0 then "" else Octal(n / 8, width - 1) + [('0' as int + n % 8) as char]
  }

  function Power8(k: nat): nat {
    if k == 0 then 1 else 8 * Power8(k - 1)
  }

  /** The fields that say nothing about name or contents: mode and owners, time, link name, owner names and devices. */
  datatype Other = Other(owners: string, time: string, link: string, devices: string, unused: string)

  predicate GoodOther(o: Other) {
    |o.owners| == 24 && |o.time| == 12 && |o.link| == 100 && |o.devices| == 80 && |o.unused| == 12 &&
    IsBytes(o.owners) && IsBytes(o.time) && IsBytes(o.link) && IsBytes(o.devices) && IsBytes(o.unused)
  }

  predicate IsBytes(s: string) {
    forall k :: 0 <= k < |s| ==> s[k] as int < 256
  }

  function Field(s: string, width: nat): string
    requires |s| <= width
  {
    s + Zeros(width - |s|)
  }

  function FrontPart(name: string, size: nat, o: Other): string
    requires |name| <= 100
  {
    Field(name, 100) + o.owners + (Octal(size, 11) + [ZERO]) + o.time
  }

  function BackPart(prefix: string, kind: char, o: Other): string
    requires |prefix| <= 155
  {
    [kind] + o.link + MAGIC + o.devices + Field(prefix, 155) + o.unused
  }

  /** Both parts with the checksum between them. */
  function Assemble(front: string, back: string): string {
    front + (Octal(Sum(front) + 8 * 32 + Sum(back), 6) + [ZERO, ' ']) + back
  }

  function WriteHeader(prefix: string, name: string, size: nat, kind: char, o: Other): string
    requires |name| <= 100 && |prefix| <= 155
  {
    Assemble(FrontPart(name, size, o), BackPart(prefix, kind, o))
  }

  // ---------- a header comes back ----------

  lemma {:induction false} SumBound(s: string)
    requires IsBytes(s)
    ensures Sum(s) <= 255 * |s|
  {
    if s != "" {
      SumBound(s[..|s| - 1]);
    }
  }

  lemma {:induction false} OctalDigits(n: nat, width: nat)
    ensures |Octal(n, width)| == width && forall k :: 0 <= k < width ==> OctalDigit(Octal(n, width)[k])
  {
    if width > 0 {
      OctalDigits(n / 8, width - 1);
    }
  }

  lemma {:induction false} OctalComesBack(n: nat, width: nat)
    requires n < Power8(width)
    ensures OctalValue(Octal(n, width)) == n
  {
    OctalDigits(n, width);
    if width > 0 {
      OctalDigits(n / 8, width - 1);
      OctalComesBack(n / 8, width - 1);
      assert Octal(n, width)[..width - 1] == Octal(n / 8, width - 1);
    }
  }

  /** Blanks after a text that neither begins nor ends with one. */
  lemma {:induction false} StripTail(s: string, tail: string, blanks: set<char>)
    requires s != "" && s[0] !in blanks && s[|s| - 1] !in blanks && forall k :: 0 <= k < |tail| ==> tail[k] in blanks
    ensures Strip(s + tail, blanks) == s
    decreases |tail|
  {
    if tail == "" {
      assert s + tail == s;
    } else {
      var n := |tail| - 1;
      StripTail(s, tail[..n], blanks);
      assert (s + tail)[..|s + tail| - 1] == s + tail[..n];
      assert (s + tail)[|s + tail| - 1] == tail[n];
    }
  }

  lemma DigitsParse(s: string)
    requires s != "" && forall k :: 0 <= k < |s| ==> OctalDigit(s[k])
    ensures ParseOctal(s) == Some(OctalValue(s))
  {
    StripNone(s);
    DigitsAreOctal(s);
  }

  lemma StripNone(s: string)
    requires s != "" && OctalDigit(s[0]) && OctalDigit(s[|s| - 1])
    ensures Strip(s, WHITE) == s
  {
    StripTail(s, "", WHITE);
    assert s + "" == s;
  }

  lemma DigitsAreOctal(s: string)
    requires s != "" && forall k :: 0 <= k < |s| ==> OctalDigit(s[k])
    ensures SignedOctal(s) == Some(OctalValue(s))
  {
    DigitsHaveNoUnderscores(s);
  }

  lemma DigitsHaveNoUnderscores(s: string)
    requires forall k :: 0 <= k < |s| ==> OctalDigit(s[k])
    ensures NoTwoUnderscores(s)
  {
  }

  /** A number written in octal with blanks after it is read back. */
  lemma NumberComesBack(n: nat, width: nat, tail: string)
    requires 0 < width && n < Power8(width) && forall k :: 0 <= k < |tail| ==> tail[k] == ' ' || tail[k] == ZERO
    ensures NumericField(Octal(n, width) + tail) == Some(n)
  {
    var s := Octal(n, width);
    OctalDigits(n, width);
    OctalComesBack(n, width);
    StripTail(s, tail, {' ', ZERO});
    DigitsParse(s);
  }

  lemma {:induction false} UntilZeroOfField(s: string, n: nat)
    requires ZERO !in s
    ensures UntilZero(s + Zeros(n)) == s
    decreases |s|
  {
    if s != "" {
      UntilZeroOfField(s[1..], n);
      assert (s + Zeros(n))[1..] == s[1..] + Zeros(n);
      assert [s[0]] + s[1..] == s;
    }
  }

  lemma Slice(a: string, b: string, c: string)
    ensures var s := a + b + c;
      s[..|a|] == a && s[|a|..|a| + |b|] == b && s[|a| + |b|..] == c
  {
  }

  lemma FrontFields(name: string, size: nat, o: Other)
    requires |name| <= 100 && GoodOther(o)
    ensures var front := FrontPart(name, size, o);
      && |front| == 148
      && front[..100] == Field(name, 100) && front[124..136] == Octal(size, 11) + [ZERO]
  {
    OctalDigits(size, 11);
    var f, n := Field(name, 100), Octal(size, 11) + [ZERO];
    Slice("", f, o.owners + n + o.time);
    assert FrontPart(name, size, o) == "" + f + (o.owners + n + o.time) == (f + o.owners) + n + o.time;
    Slice(f + o.owners, n, o.time);
  }

  lemma BackFields(prefix: string, kind: char, o: Other)
    requires |prefix| <= 155 && GoodOther(o)
    ensures var back := BackPart(prefix, kind, o);
      && |back| == 356
      && back[0] == kind && back[101..109] == MAGIC && back[189..344] == Field(prefix, 155)
  {
    var head, f := [kind] + o.link, Field(prefix, 155);
    assert BackPart(prefix, kind, o) == head + MAGIC + (o.devices + f + o.unused);
    Slice(head, MAGIC, o.devices + f + o.unused);
    assert BackPart(prefix, kind, o) == (head + MAGIC + o.devices) + f + o.unused;
    Slice(head + MAGIC + o.devices, f, o.unused);
  }

  lemma PartsAreBytes(prefix: string, name: string, size: nat, kind: char, o: Other)
    requires |name| <= 100 && |prefix| <= 155 && IsBytes(name) && IsBytes(prefix) && kind as int < 256 && GoodOther(o)
    ensures IsBytes(FrontPart(name, size, o)) && IsBytes(BackPart(prefix, kind, o))
  {
    OctalDigits(size, 11);
    BytesJoin(Field(name, 100), o.owners);
    BytesJoin(Octal(size, 11), [ZERO]);
    BytesJoin(Field(name, 100) + o.owners, Octal(size, 11) + [ZERO]);
    BytesJoin(Field(name, 100) + o.owners + (Octal(size, 11) + [ZERO]), o.time);
    BytesJoin([kind], o.link);
    BytesJoin([kind] + o.link, MAGIC);
    BytesJoin([kind] + o.link + MAGIC, o.devices);
    BytesJoin([kind] + o.link + MAGIC + o.devices, Field(prefix, 155));
    BytesJoin([kind] + o.link + MAGIC + o.devices + Field(prefix, 155), o.unused);
  }

  lemma BytesJoin(a: string, b: string)
    requires IsBytes(a) && IsBytes(b)
    ensures IsBytes(a + b)
  {
  }

  lemma Powers()
    ensures Power8(6) == 262144 && Power8(11) == 8589934592
  {
    assert Power8(3) == 512;
    assert Power8(6) == 512 * Power8(3);
    assert Power8(9) == 512 * Power8(6);
  }

  /** The same place seen in the whole block. */
  lemma Inside(h: string, off: nat, part: string, i: nat, j: nat)
    requires off + |part| <= |h| && h[off..off + |part|] == part && i <= j <= |part|
    ensures h[off + i..off + j] == part[i..j]
  {
    var u, v := h[off + i..off + j], part[i..j];
    forall k | 0 <= k < j - i ensures u[k] == v[k] {
      assert h[off..off + |part|][i + k] == part[i + k];
    }
    assert u == v;
  }

  predicate Writable(prefix: string, name: string, size: nat, utf8: string -> bool) {
    && |name| <= 100 && |prefix| <= 155 && size < Power8(11)
    && IsBytes(name) && IsBytes(prefix) && ZERO !in name && ZERO !in prefix
    && utf8(name) && utf8(prefix)
  }

  predicate FrontIs(front: string, name: string, size: nat) {
    && |front| == 148 && IsBytes(front) && |name| <= 100
    && front[..100] == Field(name, 100) && front[124..136] == Octal(size, 11) + [ZERO]
  }

  predicate BackIs(back: string, prefix: string, kind: char) {
    && |back| == 356 && IsBytes(back) && |prefix| <= 155
    && back[0] == kind && back[101..109] == MAGIC && back[189..344] == Field(prefix, 155)
  }

  lemma AssembledParts(front: string, back: string)
    requires |front| == 148 && |back| == 356
    ensures var h := Assemble(front, back);
      && |h| == 512 && h[..148] == front && h[156..] == back
      && h[148..156] == Octal(Sum(front) + 8 * 32 + Sum(back), 6) + [ZERO, ' ']
  {
    OctalDigits(Sum(front) + 8 * 32 + Sum(back), 6);
    Slice(front, Octal(Sum(front) + 8 * 32 + Sum(back), 6) + [ZERO, ' '], back);
  }

  lemma ChecksumComesBack(front: string, back: string)
    requires |front| == 148 && |back| == 356 && IsBytes(front) && IsBytes(back)
    ensures var sum := Sum(front) + 8 * 32 + Sum(back);
      NumericField(Octal(sum, 6) + [ZERO, ' ']) == Some(sum)
  {
    SumBound(front);
    SumBound(back);
    Powers();
    NumberComesBack(Sum(front) + 8 * 32 + Sum(back), 6, [ZERO, ' ']);
  }

  /** The fields of the two parts, seen in the whole block. */
  lemma FieldsInBlock(h: string, front: string, back: string, prefix: string, name: string, size: nat, kind: char)
    requires |h| == 512 && FrontIs(front, name, size) && BackIs(back, prefix, kind) && h[..148] == front
             && h[156..] == back
    ensures h[..100] == Field(name, 100) && h[124..136] == Octal(size, 11) + [ZERO]
    ensures h[156] == kind && h[257..265] == MAGIC && h[345..500] == Field(prefix, 155)
  {
    assert h[0..148] == front;
    Inside(h, 0, front, 0, 100);
    Inside(h, 0, front, 124, 136);
    assert h[156..156 + 356] == back;
    Inside(h, 156, back, 101, 109);
    Inside(h, 156, back, 189, 344);
    assert h[156..][0] == back[0];
  }

  /** What the fields of a block hold. */
  predicate Readable(h: string, prefix: string, name: string, size: nat, utf8: string -> bool)
    requires |h| == 512
  {
    && utf8(name) && utf8(prefix)
    && NumericField(h[148..156]) == Some(Sum(h[..148]) + 8 * 32 + Sum(h[156..]))
    && NumericField(h[124..136]) == Some(size)
    && h[257..265] == MAGIC && (h[156] == ZERO || h[156] == '0')
    && UntilZero(h[..100]) == name && UntilZero(h[345..500]) == prefix
  }

  lemma HeaderFromFields(h: string, prefix: string, name: string, size: nat, utf8: string -> bool)
    requires |h| == 512 && Readable(h, prefix, name, size, utf8)
    ensures h != Zeros(512) && HeaderOf(h, utf8) == Some(Header(FullName(prefix, name), size))
  {
    assert h[257] == h[257..265][0] == 'u';
    assert Zeros(512)[257] == ZERO;
  }

  lemma NamesRead(h: string, front: string, back: string, prefix: string, name: string, size: nat, kind: char)
    requires |h| == 512 && FrontIs(front, name, size) && BackIs(back, prefix, kind) && h[..148] == front
             && h[156..] == back
    requires ZERO !in name && ZERO !in prefix
    ensures UntilZero(h[..100]) == name && UntilZero(h[345..500]) == prefix
    ensures h[156] == kind && h[257..265] == MAGIC
  {
    FieldsInBlock(h, front, back, prefix, name, size, kind);
    UntilZeroOfField(name, 100 - |name|);
    UntilZeroOfField(prefix, 155 - |prefix|);
  }

  lemma SizeReads(h: string, front: string, back: string, prefix: string, name: string, size: nat, kind: char)
    requires |h| == 512 && FrontIs(front, name, size) && BackIs(back, prefix, kind) && h[..148] == front
             && h[156..] == back
    requires size < Power8(11)
    ensures NumericField(h[124..136]) == Some(size)
  {
    FieldsInBlock(h, front, back, prefix, name, size, kind);
    NumberComesBack(size, 11, [ZERO]);
  }

  /** A block with these parts and a right checksum can be read. */
  lemma BlockIsReadable(h: string, front: string, back: string, prefix: string, name: string, size: nat, kind: char,
                        utf8: string -> bool)
    requires |h| == 512 && FrontIs(front, name, size) && BackIs(back, prefix, kind) && h[..148] == front
             && h[156..] == back
    requires NumericField(h[148..156]) == Some(Sum(h[..148]) + 8 * 32 + Sum(h[156..]))
    requires ZERO !in name && ZERO !in prefix && utf8(name) && utf8(prefix) && size < Power8(11)
    requires kind == ZERO || kind == '0'
    ensures Readable(h, prefix, name, size, utf8)
  {
    NamesRead(h, front, back, prefix, name, size, kind);
    SizeReads(h, front, back, prefix, name, size, kind);
  }

  lemma AssembledComesBack(front: string, back: string, prefix: string, name: string, size: nat, kind: char,
                           utf8: string -> bool)
    requires FrontIs(front, name, size) && BackIs(back, prefix, kind)
    requires ZERO !in name && ZERO !in prefix && utf8(name) && utf8(prefix) && size < Power8(11)
    requires kind == ZERO || kind == '0'
    ensures var h := Assemble(front, back);
      |h| == 512 && h != Zeros(512) && HeaderOf(h, utf8) == Some(Header(FullName(prefix, name), size))
  {
    AssembledParts(front, back);
    ChecksumComesBack(front, back);
    BlockIsReadable(Assemble(front, back), front, back, prefix, name, size, kind, utf8);
    HeaderFromFields(Assemble(front, back), prefix, name, size, utf8);
  }

  lemma WrittenParts(prefix: string, name: string, size: nat, kind: char, o: Other)
    requires |name| <= 100 && |prefix| <= 155 && IsBytes(name) && IsBytes(prefix) && kind as int < 256 && GoodOther(o)
    ensures FrontIs(FrontPart(name, size, o), name, size) && BackIs(BackPart(prefix, kind, o), prefix, kind)
  {
    PartsAreBytes(prefix, name, size, kind, o);
    FrontFields(name, size, o);
    BackFields(prefix, kind, o);
  }

  /** Every header that the format can hold is read back, whatever the fields that the reader ignores. */
  lemma HeaderComesBack(prefix: string, name: string, size: nat, kind: char, o: Other, utf8: string -> bool)
    requires Writable(prefix, name, size, utf8) && GoodOther(o) && (kind == ZERO || kind == '0')
    ensures var h := WriteHeader(prefix, name, size, kind, o);
      |h| == 512 && h != Zeros(512) && HeaderOf(h, utf8) == Some(Header(FullName(prefix, name), size))
  {
    WrittenParts(prefix, name, size, kind, o);
    AssembledComesBack(FrontPart(name, size, o), BackPart(prefix, kind, o), prefix, name, size, kind, utf8);
  }

  // ---------- what is read as a number ----------

  predicate AllIn(s: string, chars: set<char>) {
    forall k :: 0 <= k < |s| ==> s[k] in chars
  }

  lemma {:induction false} UnderscoresApart(s: string)
    ensures NoTwoUnderscores(s) <==> forall k :: 0 < k < |s| ==> !(s[k - 1] == '_' && s[k] == '_')
    decreases |s|
  {
    if |s| >= 2 {
      var t := s[1..];
      UnderscoresApart(t);
      if NoTwoUnderscores(s) {
        forall k | 0 < k < |s| ensures !(s[k - 1] == '_' && s[k] == '_') {
          if k > 1 {
            assert !(t[k - 1 - 1] == '_' && t[k - 1] == '_');
          }
        }
      }
      if forall k :: 0 < k < |s| ==> !(s[k - 1] == '_' && s[k] == '_') {
        forall k | 0 < k < |t| ensures !(t[k - 1] == '_' && t[k] == '_') {
          assert !(s[k + 1 - 1] == '_' && s[k + 1] == '_');
        }
      }
    }
  }

  /** Blanks around a text change nothing. */
  lemma {:induction false} StripLeftOf(a: string, s: string, blanks: set<char>)
    requires AllIn(a, blanks)
    ensures StripLeft(a + s, blanks) == StripLeft(s, blanks)
    decreases |a|
  {
    if a == "" {
      assert a + s == s;
    } else {
      assert (a + s)[1..] == a[1..] + s;
      StripLeftOf(a[1..], s, blanks);
    }
  }

  lemma {:induction false} StripRightOf(s: string, b: string, blanks: set<char>)
    requires AllIn(b, blanks)
    ensures StripRight(s + b, blanks) == StripRight(s, blanks)
    decreases |b|
  {
    if b == "" {
      assert s + b == s;
    } else {
      assert (s + b)[..|s + b| - 1] == s + b[..|b| - 1];
      StripRightOf(s, b[..|b| - 1], blanks);
    }
  }

  /** What a strip leaves, and the blanks that it takes away. */
  lemma {:induction false} StripLeftSplits(s: string, blanks: set<char>) returns (a: string)
    ensures s == a + StripLeft(s, blanks) && AllIn(a, blanks)
    decreases |s|
  {
    if s != "" && s[0] in blanks {
      var rest := StripLeftSplits(s[1..], blanks);
      a := [s[0]] + rest;
      assert s == [s[0]] + s[1..];
    } else {
      a := "";
    }
  }

  lemma {:induction false} StripRightSplits(s: string, blanks: set<char>) returns (b: string)
    ensures s == StripRight(s, blanks) + b && AllIn(b, blanks)
    decreases |s|
  {
    if s != "" && s[|s| - 1] in blanks {
      var n := |s| - 1;
      var rest := StripRightSplits(s[..n], blanks);
      b := rest + [s[n]];
      assert s == s[..n] + [s[n]];
    } else {
      b := "";
    }
  }

  lemma StripSplits(s: string, blanks: set<char>) returns (a: string, b: string)
    ensures s == a + Strip(s, blanks) + b && AllIn(a, blanks) && AllIn(b, blanks)
  {
    a := StripLeftSplits(s, blanks);
    b := StripRightSplits(StripLeft(s, blanks), blanks);
  }

  /** A text whose ends are no blanks is what remains of it between blanks. */
  lemma StripAround(a: string, s: string, b: string, blanks: set<char>)
    requires AllIn(a, blanks) && AllIn(b, blanks) && s != "" && s[0] !in blanks && s[|s| - 1] !in blanks
    ensures Strip(a + s + b, blanks) == s
  {
    assert a + s + b == a + (s + b);
    StripLeftOf(a, s + b, blanks);
    StripRightOf(s, b, blanks);
    assert (s + b)[0] == s[0];
  }

  /** A mark and octal digits. */
  predicate MarkedText(u: string, mark: string, digits: string) {
    IsMark(mark) && OctalText(digits) && u == mark + digits
  }

  /** Octal digits and underscores, the underscores neither at the ends nor next to each other. */
  predicate PlainOctal(s: string) {
    && s != "" && (forall k :: 0 <= k < |s| ==> '0' <= s[k] <= '7' || s[k] == '_')
    && s[0] != '_' && s[|s| - 1] != '_' && forall k :: 0 < k < |s| ==> !(s[k - 1] == '_' && s[k] == '_')
  }

  lemma PlainOctalExactly(s: string)
    ensures OctalText(s) <==> PlainOctal(s)
  {
    UnderscoresApart(s);
  }

  predicate IsMark(s: string) {
    s == "" || s == "0o" || s == "0O" || s == "0o_" || s == "0O_"
  }

  ghost predicate DenotesPlain(u: string, n: nat) {
    exists mark, digits :: MarkedText(u, mark, digits) && n == OctalValue(digits)
  }

  /** The text is an octal number, with or without a sign. */
  ghost predicate Denotes(t: string, v: int) {
    || (v >= 0 && DenotesPlain(t, v))
    || (exists u :: t == "+" + u && v >= 0 && DenotesPlain(u, v))
    || (exists u :: t == "-" + u && v <= 0 && DenotesPlain(u, 0 - v))
  }

  /** A field that reads as a number: blanks and zero bytes, white space, the number, white space, blanks. */
  ghost predicate ReadsAs(field: string, v: int) {
    exists a, b, t, c, d :: ReadsBetween(field, a, b, t, c, d) && Denotes(t, v)
  }

  predicate ReadsBetween(field: string, a: string, b: string, t: string, c: string, d: string) {
    && field == a + (b + t + c) + d
    && AllIn(a, {' ', ZERO}) && AllIn(b, WHITE) && AllIn(c, WHITE) && AllIn(d, {' ', ZERO})
  }

  lemma MarkedExactly(u: string, n: nat)
    ensures MarkedOctal(u) == Some(n) <==> DenotesPlain(u, n)
  {
    if MarkedOctal(u) == Some(n) {
      var prefixed := |u| >= 2 && u[0] == '0' && (u[1] == 'o' || u[1] == 'O');
      var k := if !prefixed then 0 else if |u| > 2 && u[2] == '_' then 3 else 2;
      MarkIs(u, k);
      assert u == u[..k] + u[k..];
      assert k == 3 ==> u[2..][1..] == u[3..];
      assert u[0..] == u;
      assert MarkedText(u, u[..k], u[k..]);
    }
    if mark, digits :| MarkedText(u, mark, digits) && n == OctalValue(digits) {
      MarkedReads(u, mark, digits);
    }
  }

  lemma MarkIs(u: string, k: nat)
    requires k <= |u| && (k == 0 || k == 2 || k == 3)
    requires k >= 2 ==> u[0] == '0' && (u[1] == 'o' || u[1] == 'O')
    requires k == 3 ==> u[2] == '_'
    ensures IsMark(u[..k])
  {
    assert k == 2 ==> u[..2] == [u[0], u[1]];
    assert k == 3 ==> u[..3] == [u[0], u[1], u[2]];
  }

  lemma MarkedReads(u: string, mark: string, digits: string)
    requires MarkedText(u, mark, digits)
    ensures MarkedOctal(u) == Some(OctalValue(digits))
  {
    assert u[|mark|..] == digits && digits[0] != '_';
    if mark == "" {
      assert u == digits;
    } else {
      assert u[0] == mark[0] && u[1] == mark[1];
      assert |mark| == 2 ==> u[2] == digits[0];
      assert |mark| == 3 ==> u[2] == mark[2] && u[2..][1..] == digits;
    }
  }

  lemma SignedExactly(t: string, v: int)
    ensures SignedOctal(t) == Some(v) <==> Denotes(t, v)
  {
    if SignedOctal(t) == Some(v) {
      SignedIsThere(t, v);
    }
    if Denotes(t, v) {
      SignedReads(t, v);
    }
  }

  lemma SignedIsThere(t: string, v: int)
    requires SignedOctal(t) == Some(v)
    ensures Denotes(t, v)
  {
    if t != "" && (t[0] == '-' || t[0] == '+') {
      var n := MarkedOctal(t[1..]).value;
      MarkedExactly(t[1..], n);
      assert t == [t[0]] + t[1..];
      assert [t[0]] == if t[0] == '-' then "-" else "+";
    } else {
      MarkedExactly(t, MarkedOctal(t).value);
    }
  }

  lemma SignedReads(t: string, v: int)
    requires Denotes(t, v)
    ensures SignedOctal(t) == Some(v)
  {
    if v >= 0 && DenotesPlain(t, v) {
      PlainReads(t, v);
    } else if u :| t == "+" + u && v >= 0 && DenotesPlain(u, v) {
      AfterSign('+', u, v);
      assert t == ['+'] + u;
    } else {
      var u :| t == "-" + u && v <= 0 && DenotesPlain(u, 0 - v);
      AfterSign('-', u, 0 - v);
      assert t == ['-'] + u;
    }
  }

  lemma PlainReads(t: string, n: nat)
    requires DenotesPlain(t, n)
    ensures SignedOctal(t) == Some(n)
  {
    MarkedExactly(t, n);
    PlainEnds(t, n);
    WithoutSign(t, n);
  }

  lemma WithoutSign(t: string, n: nat)
    requires MarkedOctal(t) == Some(n) && t != "" && t[0] != '-' && t[0] != '+'
    ensures SignedOctal(t) == Some(n)
  {
  }

  lemma AfterSign(sign: char, u: string, n: nat)
    requires (sign == '+' || sign == '-') && DenotesPlain(u, n)
    ensures SignedOctal([sign] + u) == Some(if sign == '-' then 0 - n else n)
  {
    MarkedExactly(u, n);
    assert ([sign] + u)[1..] == u;
  }

  lemma PlainEnds(u: string, n: nat)
    requires DenotesPlain(u, n)
    ensures u != "" && OctalDigit(u[0]) && OctalDigit(u[|u| - 1])
  {
    var mark, digits :| MarkedText(u, mark, digits) && n == OctalValue(digits);
    assert u[|u| - 1] == digits[|digits| - 1];
    assert u[0] == if mark != "" then mark[0] else digits[0];
  }

  lemma SignedEnds(t: string, v: int)
    requires Denotes(t, v)
    ensures t != "" && t[0] !in WHITE + {ZERO} && t[|t| - 1] !in WHITE + {ZERO}
  {
    if v >= 0 && DenotesPlain(t, v) {
      PlainEnds(t, v);
    } else if u :| t == "+" + u && v >= 0 && DenotesPlain(u, v) {
      PlainEnds(u, v);
      assert t[0] == '+' && t[|t| - 1] == u[|u| - 1];
    } else {
      var u :| t == "-" + u && v <= 0 && DenotesPlain(u, 0 - v);
      PlainEnds(u, 0 - v);
      assert t[0] == '-' && t[|t| - 1] == u[|u| - 1];
    }
  }

  /** Exactly what a numeric field is read as. */
  lemma NumberExactly(field: string, v: int)
    ensures NumericField(field) == Some(v) <==> ReadsAs(field, v)
  {
    if NumericField(field) == Some(v) {
      NumberIsThere(field, v);
    }
    if a, b, t, c, d :| ReadsBetween(field, a, b, t, c, d) && Denotes(t, v) {
      NumberIsRead(field, a, b, t, c, d, v);
    }
  }

  lemma NumberIsThere(field: string, v: int)
    requires NumericField(field) == Some(v)
    ensures ReadsAs(field, v)
  {
    var inner := Strip(field, {' ', ZERO});
    var a, d := StripSplits(field, {' ', ZERO});
    var b, c := StripSplits(inner, WHITE);
    SignedExactly(Strip(inner, WHITE), v);
    assert ReadsBetween(field, a, b, Strip(inner, WHITE), c, d);
  }

  lemma NumberIsRead(field: string, a: string, b: string, t: string, c: string, d: string, v: int)
    requires ReadsBetween(field, a, b, t, c, d) && Denotes(t, v)
    ensures NumericField(field) == Some(v)
  {
    SignedEnds(t, v);
    SignedExactly(t, v);
    assert a + (b + t + c) + d == a + (b + t + c + d);
    StripLeftOf(a, b + t + c + d, {' ', ZERO});
    StripsTwice(b, t, c, d);
  }

  /** Stripping the outer blanks leaves some of the white space, and stripping that leaves the number. */
  lemma StripsTwice(b: string, t: string, c: string, d: string)
    requires t != "" && t[0] !in WHITE + {ZERO} && t[|t| - 1] !in WHITE + {ZERO}
    requires AllIn(b, WHITE) && AllIn(c, WHITE) && AllIn(d, {' ', ZERO})
    ensures Strip(Strip(b + t + c + d, {' ', ZERO}), WHITE) == t
  {
    var outer := {' ', ZERO};
    var b' := LeftOver(b, t + c + d, outer);
    assert b + t + c + d == b + (t + c + d);
    var c' := RightOver(b' + t, c, outer);
    assert b' + (t + c + d) == b' + t + c + d;
    StripRightOf(b' + t + c, d, outer);
    StripAround(b', t, c', WHITE);
  }

  /** Stripping on the left stops in front of the number. */
  lemma {:induction false} LeftOver(b: string, s: string, outer: set<char>) returns (b': string)
    requires s != "" && s[0] !in outer && AllIn(b, WHITE)
    ensures StripLeft(b + s, outer) == b' + s && AllIn(b', WHITE)
    decreases |b|
  {
    if b != "" && b[0] in outer {
      assert (b + s)[1..] == b[1..] + s;
      b' := LeftOver(b[1..], s, outer);
    } else {
      b' := b;
      assert b + s != "" && (b + s)[0] == if b == "" then s[0] else b[0];
    }
  }

  lemma {:induction false} RightOver(s: string, c: string, outer: set<char>) returns (c': string)
    requires s != "" && s[|s| - 1] !in outer && AllIn(c, WHITE)
    ensures StripRight(s + c, outer) == s + c' && AllIn(c', WHITE)
    decreases |c|
  {
    if c != "" && c[|c| - 1] in outer {
      assert (s + c)[..|s + c| - 1] == s + c[..|c| - 1];
      c' := RightOver(s, c[..|c| - 1], outer);
    } else {
      c' := c;
      assert (s + c)[|s + c| - 1] == if c == "" then s[|s| - 1] else c[|c| - 1];
    }
  }

  /** Digits without underscores are the octal form of their value, and underscores do not count. */
  lemma {:induction false} DigitsComeBack(s: string)
    requires forall k :: 0 <= k < |s| ==> OctalDigit(s[k])
    ensures Octal(OctalValue(s), |s|) == s
  {
    if s != "" {
      var n := |s| - 1;
      DigitsComeBack(s[..n]);
      assert s == s[..n] + [s[n]];
      LastDigit(OctalValue(s[..n]), s[n]);
    }
  }

  lemma LastDigit(v: nat, c: char)
    requires OctalDigit(c)
    ensures var w := 8 * v + (c as int - '0' as int); w / 8 == v && ('0' as int + w % 8) as char == c
  {
  }

  function DropUnderscores(s: string): string {
    if s == "" then "" else DropUnderscores(s[..|s| - 1]) + if s[|s| - 1] == '_' then "" else [s[|s| - 1]]
  }

  lemma {:induction false} UnderscoresDoNotCount(s: string)
    requires forall k :: 0 <= k < |s| ==> OctalDigit(s[k]) || s[k] == '_'
    ensures OctalValue(s) == OctalValue(DropUnderscores(s))
    ensures forall k :: 0 <= k < |DropUnderscores(s)| ==> OctalDigit(DropUnderscores(s)[k])
  {
    if s != "" {
      var n := |s| - 1;
      var front := DropUnderscores(s[..n]);
      UnderscoresDoNotCount(s[..n]);
      if s[n] != '_' {
        assert (front + [s[n]])[..|front|] == front;
      } else {
        assert front + "" == front;
      }
    }
  }

  // ---------- exactly what is accepted as a header ----------

  lemma {:induction false} SumJoins(a: string, b: string)
    ensures Sum(a + b) == Sum(a) + Sum(b)
    decreases |b|
  {
    if b == "" {
      assert a + b == a;
    } else {
      var n := |b| - 1;
      SumJoins(a, b[..n]);
      assert (a + b)[..|a + b| - 1] == a + b[..n];
    }
  }

  /** The block with blanks in its checksum field. */
  function Blanked(h: string): string
    requires |h| == 512
  {
    h[..148] + "        " + h[156..]
  }

  lemma BlankedSum(h: string)
    requires |h| == 512
    ensures Sum(Blanked(h)) == Sum(h[..148]) + 8 * 32 + Sum(h[156..])
  {
    var four := "    ";
    assert Sum(four[..1]) == 32;
    SumJoins(four[..1], four[..1]);
    assert four[..1] + four[..1] == four[..2];
    SumJoins(four[..2], four[..2]);
    assert four[..2] + four[..2] == four;
    SumJoins(four, four);
    assert "        " == four + four;
    SumJoins(h[..148], "        ");
    SumJoins(h[..148] + "        ", h[156..]);
  }

  /** The text in a field that a zero byte ends, if there is one. */
  predicate TextIn(field: string, text: string) {
    && ZERO !in text && |text| <= |field| && field[..|text|] == text
    && (|text| < |field| ==> field[|text|] == ZERO)
  }

  lemma {:induction false} TextInExactly(field: string, text: string)
    ensures TextIn(field, text) <==> UntilZero(field) == text
    decreases |field|
  {
    if field != "" && field[0] != ZERO {
      if text != "" {
        TextInExactly(field[1..], text[1..]);
        TextInTail(field, text);
      }
    } else if text != "" {
      StartsOtherwise(field, text);
    }
  }

  lemma StartsOtherwise(field: string, text: string)
    requires text != "" && (field == "" || field[0] == ZERO)
    ensures !TextIn(field, text)
  {
    if text[0] != ZERO && 0 < |text| <= |field| {
      assert field[..|text|][0] != text[0];
    }
  }

  lemma TextInTail(field: string, text: string)
    requires field != "" && field[0] != ZERO && text != ""
    ensures TextIn(field, text) <==> field[0] == text[0] && TextIn(field[1..], text[1..])
  {
    if TextIn(field, text) {
      assert field[..|text|][0] == text[0];
      assert field[1..][..|text| - 1] == field[..|text|][1..];
      assert forall c :: c in text[1..] ==> c in text;
    }
    if field[0] == text[0] && TextIn(field[1..], text[1..]) {
      assert field[..|text|] == [field[0]] + field[1..][..|text| - 1];
      assert text == [text[0]] + text[1..];
    }
  }

  /** The names that the two name fields hold, as one path. */
  predicate Named(h: string, utf8: string -> bool, prefix: string, name: string, path: string)
    requires |h| == 512
  {
    && TextIn(h[..100], name) && TextIn(h[345..500], prefix) && utf8(name) && utf8(prefix)
    && path == if prefix == "" then name else prefix + "/" + name
  }

  predicate Marked(h: string)
    requires |h| == 512
  {
    && h[257] == 'u' && h[258] == 's' && h[259] == 't' && h[260] == 'a' && h[261] == 'r' && h[262] == ZERO
    && h[263] == '0' && h[264] == '0' && (h[156] == ZERO || h[156] == '0')
  }

  /** What a header is, byte by byte. */
  ghost predicate IsHeader(h: string, utf8: string -> bool, path: string, size: nat)
    requires |h| == 512
  {
    && ReadsAs(h[148..156], Sum(Blanked(h))) && ReadsAs(h[124..136], size) && Marked(h)
    && HasNames(h, utf8, path)
  }

  lemma MagicExactly(h: string)
    requires |h| == 512
    ensures Marked(h) <==> h[257..265] == MAGIC && (h[156] == ZERO || h[156] == '0')
  {
    var m := h[257..265];
    assert forall k :: 0 <= k < 8 ==> m[k] == h[257 + k];
    assert m[0] == h[257] && m[1] == h[258] && m[2] == h[259] && m[3] == h[260];
    assert m[4] == h[261] && m[5] == h[262] && m[6] == h[263] && m[7] == h[264];
  }

  /** The exact condition: every block is accepted with a path and a size exactly when it is a header with them. */
  lemma HeaderExactly(h: string, utf8: string -> bool, path: string, size: nat)
    requires |h| == 512
    ensures HeaderOf(h, utf8) == Some(Header(path, size)) <==> IsHeader(h, utf8, path, size)
  {
    var sum := Sum(h[..148]) + 8 * 32 + Sum(h[156..]);
    HeaderNeeds(h, utf8, path, size, sum);
    BlankedSum(h);
    NumberExactly(h[148..156], sum);
    NumberExactly(h[124..136], size);
    MagicExactly(h);
  }

  ghost predicate HasNames(h: string, utf8: string -> bool, path: string)
    requires |h| == 512
  {
    exists prefix, name :: Named(h, utf8, prefix, name, path)
  }

  lemma HeaderNeeds(h: string, utf8: string -> bool, path: string, size: nat, sum: nat)
    requires |h| == 512 && sum == Sum(h[..148]) + 8 * 32 + Sum(h[156..])
    ensures HeaderOf(h, utf8) == Some(Header(path, size)) <==>
            && NumericField(h[148..156]) == Some(sum) && NumericField(h[124..136]) == Some(size)
            && h[257..265] == MAGIC && (h[156] == ZERO || h[156] == '0') && HasNames(h, utf8, path)
  {
    NamesExactly(h, utf8, path);
    FieldsExactly(NumericField(h[148..156]), NumericField(h[124..136]), sum,
                  h[257..265], h[156], UntilZero(h[..100]), UntilZero(h[345..500]), utf8, path, size);
  }

  lemma FieldsExactly(checksum: Option<int>, length: Option<int>, sum: nat, magic: string, kind: char,
                      name: string, prefix: string, utf8: string -> bool, path: string, size: nat)
    ensures HeaderFrom(checksum, length, sum, magic, kind, name, prefix, utf8) == Some(Header(path, size)) <==>
            && checksum == Some(sum) && length == Some(size) && magic == MAGIC && (kind == ZERO || kind == '0')
            && utf8(name) && utf8(prefix) && path == FullName(prefix, name)
  {
  }

  lemma NamesExactly(h: string, utf8: string -> bool, path: string)
    requires |h| == 512
    ensures var name, prefix := UntilZero(h[..100]), UntilZero(h[345..500]);
      HasNames(h, utf8, path) <==>
        utf8(name) && utf8(prefix) && path == FullName(prefix, name)
  {
    var name, prefix := UntilZero(h[..100]), UntilZero(h[345..500]);
    TextInExactly(h[..100], name);
    TextInExactly(h[345..500], prefix);
    if p, n :| Named(h, utf8, p, n, path) {
      TextInExactly(h[..100], n);
      TextInExactly(h[345..500], p);
    }
    if utf8(name) && utf8(prefix) && path == FullName(prefix, name) {
      assert Named(h, utf8, prefix, name, path);
    }
  }

  lemma SumChanges(s: string, i: nat, c: char)
    requires i < |s|
    ensures Sum(s[i := c]) - Sum(s) == c as int - s[i] as int
  {
    var a, b := s[..i], s[i + 1..];
    assert s == a + [s[i]] + b && s[i := c] == a + [c] + b;
    SumJoins(a + [s[i]], b);
    SumJoins(a, [s[i]]);
    SumJoins(a + [c], b);
    SumJoins(a, [c]);
  }

  /** No header stays one when a single byte outside its checksum field is changed. */
  lemma DamagedHeaderIsRefused(h: string, i: nat, c: char, utf8: string -> bool)
    requires |h| == 512 && HeaderOf(h, utf8).Some? && i < 512 && !(148 <= i < 156) && c != h[i]
    ensures HeaderOf(h[i := c], utf8) == None
  {
    DamageShows(h, i, c);
  }

  lemma DamageShows(h: string, i: nat, c: char)
    requires |h| == 512 && i < 512 && !(148 <= i < 156) && c != h[i]
    ensures var d := h[i := c];
      d[148..156] == h[148..156] && Sum(d[..148]) + Sum(d[156..]) != Sum(h[..148]) + Sum(h[156..])
  {
    var d := h[i := c];
    if i < 148 {
      SumChanges(h[..148], i, c);
      assert d[..148] == h[..148][i := c] && d[156..] == h[156..];
    } else {
      SumChanges(h[156..], i - 156, c);
      assert d[..148] == h[..148] && d[156..] == h[156..][i - 156 := c];
    }
  }
}
