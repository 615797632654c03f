/**
 Backup archives as byte strings (`deploy/encrypted_backup.py`): what the reader accepts, exactly.
 */
module TarArchive {
  import opened Prelude
  import opened TarFormat
  import M = Manifest

  const RECORD := 10_240

  /**
   What the reader is built on: a parser of header blocks, of JSON, of ISO times with offset zero, and the hexadecimal
   SHA-256.  The reader itself works for any of them; `Ustar` puts the real header parser in.
   */
  datatype Library = Library(head: string -> Option<Header>, json: string -> Option<M.Json>, utc: string -> bool,
                             sha: string -> string)

  function Ustar(utf8: string -> bool, json: string -> Option<M.Json>, utc: string -> bool,
                 sha: string -> string): Library {
    Library(h => if |h| == 512 then HeaderOf(h, utf8) else None, json, utc, sha)
  }

  // ---------- reading from the front of a text ----------

  /** Two zero blocks and at most one record of zero padding, and then nothing. */
  predicate Ending(t: string) {
    1024 <= |t| <= 1024 + RECORD && t == Zeros(|t|)
  }

  datatype Head = Bad | End | Entry(name: string, size: nat)

  function AsHead(h: Option<Header>): Head {
    match h
    case None => Bad
    case Some(Header(name, size)) => Entry(name, size)
  }

  function HeaderAt(t: string, lib: Library): Head {
    if |t| < 512 then Bad
    else if t[..512] == Zeros(512) then (if Ending(t) then End else Bad)
    else AsHead(lib.head(t[..512]))
  }

  /** The stream ends where there are at least 1024 and at most 11264 bytes left, all of them zero. */
  lemma EndingExactly(t: string, lib: Library)
    ensures HeaderAt(t, lib) == End <==> 1024 <= |t| <= 11_264 && forall k :: 0 <= k < |t| ==> t[k] == ZERO
  {
    if 1024 <= |t| && forall k :: 0 <= k < |t| ==> t[k] == ZERO {
      assert t == Zeros(|t|) && t[..512] == Zeros(512);
    }
    if Ending(t) {
      forall k | 0 <= k < |t| ensures t[k] == ZERO {
        assert t[k] == Zeros(|t|)[k];
      }
      assert t[..512] == Zeros(512);
    }
  }

  function PayloadAt(t: string, size: nat): Option<string> {
    if |t| < size + Pad(size) || t[size..size + Pad(size)] != Zeros(Pad(size)) then None else Some(t[..size])
  }

  /** One entry of an archive as it stands in the stream. */
  datatype Member = Member(header: string, content: string)

  function Block(m: Member): string {
    m.header + m.content + Zeros(Pad(|m.content|))
  }

  function Blocks(ms: seq<Member>): string {
    if ms == [] then "" else Block(ms[0]) + Blocks(ms[1..])
  }

  function ReadMember(t: string, name: string, size: nat, lib: Library): Option<Member> {
    if HeaderAt(t, lib) != Entry(name, size) then None
    else
      match PayloadAt(t[512..], size)
      case None => None
      case Some(content) => Some(Member(t[..512], content))
  }

  function ReadMembers(t: string, entries: seq<M.Entry>, lib: Library): Option<seq<Member>>
    decreases |entries|
  {
    if entries == [] then (if HeaderAt(t, lib) == End then Some([]) else None)
    else
      var m := ReadMember(t, entries[0].name, entries[0].size, lib);
      if m.None? || lib.sha(m.value.content) != entries[0].digest then None
      else
        BlockInFront(t, m.value);
        match ReadMembers(t[|Block(m.value)|..], entries[1..], lib)
        case None => None
        case Some(rest) => Some([m.value] + rest)
  }

  datatype Archive = Archive(manifest: Member, entries: seq<M.Entry>, members: seq<Member>)

  function Entries(raw: string, maxBytes: int, lib: Library): Option<seq<M.Entry>> {
    match lib.json(raw)
    case None => None
    case Some(doc) => M.ManifestOf(doc, maxBytes, lib.utc)
  }

  function ReadManifest(t: string, lib: Library): Option<Member> {
    match HeaderAt(t, lib)
    case Entry(name, size) =>
      if name != M.MANIFEST_NAME || size > M.MAX_MANIFEST then None else ReadMember(t, name, size, lib)
    case _ => None
  }

  /** The whole reader, without the byte limit. */
  function Unpack(t: string, maxBytes: int, lib: Library): Option<Archive> {
    match ReadManifest(t, lib)
    case None => None
    case Some(m) =>
      var entries := Entries(m.content, maxBytes, lib);
      if entries.None? then None
      else
        BlockInFront(t, m);
        match ReadMembers(t[|Block(m)|..], entries.value, lib)
        case None => None
        case Some(members) => Some(Archive(m, entries.value, members))
  }

  // ---------- what an archive is ----------

  predicate Front(t: string, front: string) {
    |front| <= |t| && t[..|front|] == front
  }

  predicate MemberIs(m: Member, name: string, size: nat, lib: Library) {
    && |m.header| == 512 && m.header != Zeros(512) && lib.head(m.header) == Some(Header(name, size))
    && |m.content| == size
  }

  predicate Matches(ms: seq<Member>, entries: seq<M.Entry>, lib: Library) {
    && |ms| == |entries|
    && forall k :: 0 <= k < |ms| ==>
         MemberIs(ms[k], entries[k].name, entries[k].size, lib) && lib.sha(ms[k].content) == entries[k].digest
  }

  /**
   The manifest entry, the entries it lists, in its order and with its names, sizes and digests, each padded with
   zeros, the terminator and zero padding, and nothing else.
   */
  predicate IsArchive(t: string, a: Archive, maxBytes: int, lib: Library) {
    && MemberIs(a.manifest, M.MANIFEST_NAME, |a.manifest.content|, lib) && |a.manifest.content| <= M.MAX_MANIFEST
    && Entries(a.manifest.content, maxBytes, lib) == Some(a.entries)
    && Matches(a.members, a.entries, lib)
    && Front(t, Block(a.manifest) + Blocks(a.members))
    && Ending(t[|Block(a.manifest) + Blocks(a.members)|..])
  }

  lemma BlockSplits(m: Member, rest: string)
    ensures var t := Block(m) + rest;
      && t[..|m.header|] == m.header
      && t[|m.header|..][..|m.content|] == m.content
      && t[|m.header|..][|m.content|..|m.content| + Pad(|m.content|)] == Zeros(Pad(|m.content|))
  {
    var t, zeros := Block(m) + rest, Zeros(Pad(|m.content|));
    assert t == m.header + (m.content + (zeros + rest));
    assert t[|m.header|..] == m.content + (zeros + rest) == m.content + zeros + rest;
    Slice(m.content, zeros, rest);
  }

  /** A member is at the front of a text exactly when its parts can be read there. */
  lemma BlockExactly(t: string, m: Member)
    requires |m.header| == 512
    ensures Front(t, Block(m)) <==>
            |t| >= 512 && t[..512] == m.header && PayloadAt(t[512..], |m.content|) == Some(m.content)
  {
    var n, zeros := |m.content|, Zeros(Pad(|m.content|));
    if Front(t, Block(m)) {
      BlockSplits(m, t[|Block(m)|..]);
      assert t == Block(m) + t[|Block(m)|..];
    }
    if |t| >= 512 && t[..512] == m.header && PayloadAt(t[512..], n) == Some(m.content) {
      var rest := t[512..];
      assert rest == m.content + zeros + rest[n + |zeros|..];
      assert t == m.header + rest;
      assert t == Block(m) + rest[n + |zeros|..];
    }
  }

  lemma BlockInFront(t: string, m: Member)
    requires |t| >= 512 && t[..512] == m.header && PayloadAt(t[512..], |m.content|) == Some(m.content)
    ensures Front(t, Block(m)) && |Block(m)| <= |t|
  {
    BlockExactly(t, m);
  }

  lemma ReadMemberExactly(t: string, name: string, size: nat, lib: Library, m: Member)
    ensures ReadMember(t, name, size, lib) == Some(m) <==> MemberIs(m, name, size, lib) && Front(t, Block(m))
  {
    if |m.header| == 512 {
      BlockExactly(t, m);
    }
  }

  lemma FrontTwice(t: string, a: string, b: string)
    ensures Front(t, a + b) <==> Front(t, a) && Front(t[|a|..], b)
    ensures Front(t, a + b) ==> t[|a + b|..] == t[|a|..][|b|..]
  {
    if Front(t, a + b) {
      assert t[..|a|] == (a + b)[..|a|] == a;
      assert t[|a|..][..|b|] == (a + b)[|a|..] == b;
    }
    if Front(t, a) && Front(t[|a|..], b) {
      assert t == a + t[|a|..] == a + (b + t[|a|..][|b|..]);
    }
  }

  lemma {:induction false} ReadMembersExactly(t: string, entries: seq<M.Entry>, lib: Library, ms: seq<Member>)
    ensures ReadMembers(t, entries, lib) == Some(ms) <==>
            Matches(ms, entries, lib) && Front(t, Blocks(ms)) && Ending(t[|Blocks(ms)|..])
    decreases |entries|
  {
    if entries == [] {
      assert t[0..] == t;
      EndingIsEnd(t, lib);
    } else if ms != [] {
      var e, m := entries[0], ms[0];
      ReadMemberExactly(t, e.name, e.size, lib, m);
      FrontTwice(t, Block(m), Blocks(ms[1..]));
      MatchesFirst(ms, entries, lib);
      if Front(t, Block(m)) {
        ReadMembersExactly(t[|Block(m)|..], entries[1..], lib, ms[1..]);
      }
      assert [m] + ms[1..] == ms;
    }
  }

  lemma EndingIsEnd(t: string, lib: Library)
    ensures HeaderAt(t, lib) == End <==> Ending(t)
  {
    if Ending(t) {
      assert t[..512] == Zeros(512);
    }
  }

  lemma MatchesFirst(ms: seq<Member>, entries: seq<M.Entry>, lib: Library)
    requires ms != [] && entries != []
    ensures Matches(ms, entries, lib) <==>
            && MemberIs(ms[0], entries[0].name, entries[0].size, lib) && lib.sha(ms[0].content) == entries[0].digest
            && Matches(ms[1..], entries[1..], lib)
  {
    if Matches(ms[1..], entries[1..], lib) {
      forall k | 1 <= k < |ms| ensures MemberIs(ms[k], entries[k].name, entries[k].size, lib)
          && lib.sha(ms[k].content) == entries[k].digest {
        assert ms[k] == ms[1..][k - 1] && entries[k] == entries[1..][k - 1];
      }
    }
  }

  lemma ReadManifestExactly(t: string, lib: Library, m: Member)
    ensures ReadManifest(t, lib) == Some(m) <==>
            MemberIs(m, M.MANIFEST_NAME, |m.content|, lib) && |m.content| <= M.MAX_MANIFEST && Front(t, Block(m))
  {
    ReadMemberExactly(t, M.MANIFEST_NAME, |m.content|, lib, m);
  }

  lemma UnpackedIsArchive(t: string, maxBytes: int, lib: Library, a: Archive)
    requires Unpack(t, maxBytes, lib) == Some(a)
    ensures IsArchive(t, a, maxBytes, lib)
  {
    var m := a.manifest;
    ReadManifestExactly(t, lib, m);
    ReadMembersExactly(t[|Block(m)|..], a.entries, lib, a.members);
    FrontTwice(t, Block(m), Blocks(a.members));
  }

  lemma ArchiveUnpacks(t: string, maxBytes: int, lib: Library, a: Archive)
    requires IsArchive(t, a, maxBytes, lib)
    ensures Unpack(t, maxBytes, lib) == Some(a)
  {
    var m := a.manifest;
    FrontTwice(t, Block(m), Blocks(a.members));
    ReadManifestExactly(t, lib, m);
    ReadMembersExactly(t[|Block(m)|..], a.entries, lib, a.members);
  }

  /** The reader accepts exactly the archives, and returns the one that the text is. */
  lemma UnpackExactly(t: string, maxBytes: int, lib: Library, a: Archive)
    ensures Unpack(t, maxBytes, lib) == Some(a) <==> IsArchive(t, a, maxBytes, lib)
  {
    if Unpack(t, maxBytes, lib) == Some(a) {
      UnpackedIsArchive(t, maxBytes, lib, a);
    }
    if IsArchive(t, a, maxBytes, lib) {
      ArchiveUnpacks(t, maxBytes, lib, a);
    }
  }

  // ---------- the byte limit ----------

  /** The most bytes that the reader takes from the stream. */
  function Limit(maxBytes: int): int {
    maxBytes + M.MAX_MANIFEST + M.MAX_FILES * 1024 + 20_480
  }

  lemma {:induction false} TotalFromFront(entries: seq<M.Entry>)
    requires entries != []
    ensures M.Total(entries) == entries[0].size + M.Total(entries[1..])
    decreases |entries|
  {
    var n := |entries| - 1;
    if n > 0 {
      TotalFromFront(entries[..n]);
      assert entries[..n][1..] == entries[1..][..n - 1];
    } else {
      assert entries[1..] == [] && entries[..n] == [];
    }
  }

  lemma {:induction false} BlocksSize(ms: seq<Member>, entries: seq<M.Entry>, lib: Library)
    requires Matches(ms, entries, lib)
    ensures |Blocks(ms)| <= M.Total(entries) + 1023 * |entries|
    decreases |ms|
  {
    if ms != [] {
      MatchesFirst(ms, entries, lib);
      BlocksSize(ms[1..], entries[1..], lib);
      TotalFromFront(entries);
    }
  }

  /** The manifest alone bounds the size of the archive, so no archive reaches the limit. */
  lemma ArchivesFitTheLimit(t: string, a: Archive, maxBytes: int, lib: Library)
    requires IsArchive(t, a, maxBytes, lib)
    ensures |t| <= Limit(maxBytes)
  {
    BlocksSize(a.members, a.entries, lib);
    EntriesAreAcceptable(a.manifest.content, maxBytes, lib);
    LimitArithmetic(|t|, |Block(a.manifest)|, |Blocks(a.members)|, M.Total(a.entries), |a.entries|, maxBytes);
  }

  lemma EntriesAreAcceptable(raw: string, maxBytes: int, lib: Library)
    requires Entries(raw, maxBytes, lib).Some?
    ensures M.Acceptable(Entries(raw, maxBytes, lib).value, maxBytes)
  {
  }

  lemma LimitArithmetic(t: nat, manifest: nat, blocks: nat, total: nat, files: nat, maxBytes: int)
    requires t <= manifest + blocks + 1024 + RECORD && manifest <= 1023 + M.MAX_MANIFEST
    requires blocks <= total + 1023 * files && total <= maxBytes && files <= M.MAX_FILES
    ensures t <= Limit(maxBytes)
  {
  }

  // ---------- the writer ----------

  /** A file as the writer is given it: its name cut in two, the type byte, and the fields that do not matter. */
  datatype Source = Source(prefix: string, name: string, kind: char, other: Other, content: string)

  predicate AllFit(files: seq<Source>) {
    forall k :: 0 <= k < |files| ==> Fits(files[k])
  }

  predicate AllGood(files: seq<Source>, utf8: string -> bool) {
    AllFit(files) && forall k :: 0 <= k < |files| ==> GoodSource(files[k], utf8)
  }

  predicate GoodSource(f: Source, utf8: string -> bool) {
    && Fits(f) && Writable(f.prefix, f.name, |f.content|, utf8) && GoodOther(f.other)
        && (f.kind == ZERO || f.kind == '0')
  }

  predicate Fits(f: Source) {
    |f.name| <= 100 && |f.prefix| <= 155
  }

  function Written(f: Source): Member
    requires Fits(f)
  {
    Member(WriteHeader(f.prefix, f.name, |f.content|, f.kind, f.other), f.content)
  }

  function WrittenAll(files: seq<Source>): seq<Member>
    requires AllFit(files)
  {
    seq(|files|, k requires 0 <= k < |files| => Written(files[k]))
  }

  /** The manifest, the files in order, the terminator and `padding` more zeros. */
  function WriteArchive(manifest: Source, files: seq<Source>, padding: nat): string
    requires Fits(manifest)
    requires AllFit(files)
  {
    Block(Written(manifest)) + Blocks(WrittenAll(files)) + Zeros(1024 + padding)
  }

  predicate Lists(entries: seq<M.Entry>, files: seq<Source>, lib: Library) {
    && |entries| == |files|
    && forall k :: 0 <= k < |files| ==>
         entries[k] == M.Entry(FullName(files[k].prefix, files[k].name), |files[k].content|, lib.sha(files[k].content))
  }

  ghost predicate IsUstar(lib: Library, utf8: string -> bool) {
    lib == Ustar(utf8, lib.json, lib.utc, lib.sha)
  }

  lemma WrittenIs(f: Source, utf8: string -> bool, lib: Library)
    requires GoodSource(f, utf8) && IsUstar(lib, utf8)
    ensures MemberIs(Written(f), FullName(f.prefix, f.name), |f.content|, lib)
  {
    HeaderComesBack(f.prefix, f.name, |f.content|, f.kind, f.other, utf8);
  }

  /**
   Round trip: from whatever a ustar writer makes of an accepted manifest and the files it lists, the reader gets
   back the manifest and these files.
   */
  lemma RoundTrip(manifest: Source, files: seq<Source>, padding: nat, maxBytes: int, utf8: string -> bool, lib: Library)
    requires IsUstar(lib, utf8) && GoodSource(manifest, utf8) && AllGood(files, utf8)
    requires FullName(manifest.prefix, manifest.name) == M.MANIFEST_NAME && |manifest.content| <= M.MAX_MANIFEST
    requires Entries(manifest.content, maxBytes, lib).Some?
             && Lists(Entries(manifest.content, maxBytes, lib).value, files, lib)
    requires padding <= RECORD
    ensures Unpack(WriteArchive(manifest, files, padding), maxBytes, lib)
         == Some(Archive(Written(manifest), Entries(manifest.content, maxBytes, lib).value, WrittenAll(files)))
  {
    WrittenManifest(manifest, utf8, lib);
    WrittenMatches(files, Entries(manifest.content, maxBytes, lib).value, utf8, lib);
    PartsUnpack(Written(manifest), WrittenAll(files), padding, maxBytes, lib);
  }

  lemma WrittenManifest(f: Source, utf8: string -> bool, lib: Library)
    requires IsUstar(lib, utf8) && GoodSource(f, utf8) && FullName(f.prefix, f.name) == M.MANIFEST_NAME
    ensures Written(f).content == f.content && MemberIs(Written(f), M.MANIFEST_NAME, |Written(f).content|, lib)
  {
    WrittenIs(f, utf8, lib);
  }

  lemma PartsUnpack(m: Member, ms: seq<Member>, padding: nat, maxBytes: int, lib: Library)
    requires MemberIs(m, M.MANIFEST_NAME, |m.content|, lib) && |m.content| <= M.MAX_MANIFEST
    requires Entries(m.content, maxBytes, lib).Some? && Matches(ms, Entries(m.content, maxBytes, lib).value, lib)
    requires padding <= RECORD
    ensures Unpack(Block(m) + Blocks(ms) + Zeros(1024 + padding), maxBytes, lib)
         == Some(Archive(m, Entries(m.content, maxBytes, lib).value, ms))
  {
    FrontOf(Block(m) + Blocks(ms), 1024 + padding);
    ArchiveUnpacks(Block(m) + Blocks(ms) + Zeros(1024 + padding), maxBytes, lib,
                   Archive(m, Entries(m.content, maxBytes, lib).value, ms));
  }

  lemma WrittenMatches(files: seq<Source>, entries: seq<M.Entry>, utf8: string -> bool, lib: Library)
    requires IsUstar(lib, utf8) && AllGood(files, utf8)
    requires Lists(entries, files, lib)
    ensures Matches(WrittenAll(files), entries, lib)
  {
    forall k | 0 <= k < |files|
      ensures MemberIs(WrittenAll(files)[k], entries[k].name, entries[k].size, lib)
      ensures lib.sha(WrittenAll(files)[k].content) == entries[k].digest
    {
      WrittenIs(files[k], utf8, lib);
    }
  }

  lemma FrontOf(front: string, n: nat)
    requires 1024 <= n <= 1024 + RECORD
    ensures Front(front + Zeros(n), front) && Ending((front + Zeros(n))[|front|..])
  {
    assert (front + Zeros(n))[|front|..] == Zeros(n);
  }
}
