/**
 The archive reader at work (`deploy/encrypted_backup.py`): a stream read once from the front under a byte limit,
 and a directory that its files are written to.
 */
module TarReading {
  import opened Prelude
  import opened TarFormat
  import opened TarArchive
  import M = Manifest

  const CHUNK := 1_048_576

  function Min(a: nat, b: nat): nat {
    if a < b then a else b
  }

  predicate AllZero(s: string) {
    forall k :: 0 <= k < |s| ==> s[k] == ZERO
  }

  lemma AllZeroExactly(s: string)
    ensures AllZero(s) <==> s == Zeros(|s|)
  {
    if s == Zeros(|s|) {
      forall k | 0 <= k < |s| ensures s[k] == ZERO {
        assert s[k] == Zeros(|s|)[k];
      }
    }
  }

  class TarReader {
    const stream: string
    const limit: int
    var pos: nat
    var bytes: int

    predicate Valid()
      reads this
    {
      pos <= |stream| && bytes == pos
    }

    function Rest(): string
      reads this
      requires Valid()
    {
      stream[pos..]
    }

    constructor (stream: string, limit: int)
      ensures Valid() && this.stream == stream && this.limit == limit && pos == 0
    {
      this.stream, this.limit, pos, bytes := stream, limit, 0, 0;
    }

    /** Nothing when the limit is passed. */
    method Read(size: nat) returns (data: Option<string>)
      requires Valid()
      modifies this
      ensures Valid() && pos == Min(old(pos) + size, |stream|)
      ensures data == if pos > limit then None else Some(stream[old(pos)..pos])
    {
      var end := Min(pos + size, |stream|);
      var chunk := stream[pos..end];
      pos := end;
      bytes := bytes + |chunk|;
      if bytes > limit {
        return None;
      }
      return Some(chunk);
    }

    method Exact(size: nat) returns (data: Option<string>)
      requires Valid()
      modifies this
      ensures Valid() && pos == Min(old(pos) + size, |stream|)
      ensures data == if old(pos) + size > |stream| || old(pos) + size > limit then None
                      else Some(stream[old(pos)..old(pos) + size])
    {
      data := Read(size);
      if data.Some? && |data.value| != size {
        return None;
      }
    }

    /** Reads zeros to the end, at most one record of them. */
    method Trailing() returns (ok: bool)
      requires Valid()
      modifies this
      ensures Valid()
      ensures ok <==> AllZero(old(Rest())) && |old(Rest())| <= RECORD && |stream| <= limit
      ensures ok ==> pos == |stream|
    {
      ghost var start, rest := pos, Rest();
      var trailing := 0;
      var chunk := Read(512);
      if chunk.None? {
        return false;
      }
      while chunk.value != ""
        invariant Valid() && chunk.Some?
        invariant start + trailing <= pos <= limit && pos == Min(start + trailing + 512, |stream|)
        invariant chunk.value == stream[start + trailing..pos]
        invariant AllZero(rest[..trailing]) && trailing <= RECORD
        decreases |stream| - start - trailing
      {
        var before := trailing;
        trailing := trailing + |chunk.value|;
        Window(stream, start, before, trailing, chunk.value);
        ZerosGrow(rest, before, chunk.value);
        if !AllZero(chunk.value) || trailing > RECORD {
          return false;
        }
        chunk := Read(512);
        if chunk.None? {
          return false;
        }
      }
      assert rest[..trailing] == rest;
      return true;
    }

    /** What the next header says, unless reading so far would pass the limit. */
    method Header(lib: Library) returns (r: Head)
      requires Valid()
      modifies this
      ensures Valid()
      ensures r == HeadWithin(old(Rest()), limit - old(pos), lib)
      ensures r.Entry? ==> pos == old(pos) + 512
      ensures r.End? ==> pos == |stream|
    {
      ghost var rest, left := Rest(), limit - pos;
      var header := Exact(512);
      if header.None? {
        return Bad;
      }
      assert rest[..512] == header.value;
      if header.value == Zeros(512) {
        EndWithin(rest, left, lib);
        var second := Exact(512);
        assert |rest| >= 1024 ==> rest[512..1024] == stream[old(pos) + 512..old(pos) + 1024];
        if second.None? || second.value != Zeros(512) {
          return Bad;
        }
        assert rest[1024..] == Rest();
        var ok := Trailing();
        return if ok then End else Bad;
      }
      return AsHead(lib.head(header.value));
    }

    /** Copies a payload in pieces and checks the padding. */
    method Payload(size: nat) returns (content: string, ok: bool)
      requires Valid()
      modifies this
      ensures Valid()
      ensures ok <==> PayloadAt(old(Rest()), size).Some? && size + Pad(size) <= limit - old(pos)
      ensures ok ==> Some(content) == PayloadAt(old(Rest()), size) && pos == old(pos) + size + Pad(size)
    {
      ghost var rest := Rest();
      content, ok := "", false;
      var remaining := size;
      while remaining > 0
        invariant Valid() && 0 <= remaining <= size && pos == old(pos) + size - remaining
        invariant content == rest[..size - remaining]
        invariant remaining < size ==> pos <= limit
      {
        var chunk := Exact(Min(remaining, CHUNK));
        if chunk.None? {
          return;
        }
        Longer(stream, old(pos), size - remaining, chunk.value);
        content := content + chunk.value;
        remaining := remaining - |chunk.value|;
      }
      var padding := Exact(Pad(size));
      if padding.None? {
        return;
      }
      Window(stream, old(pos), size, size + Pad(size), padding.value);
      AllZeroExactly(padding.value);
      ok := AllZero(padding.value);
    }
  }

  lemma Longer(stream: string, start: nat, n: nat, chunk: string)
    requires start + n + |chunk| <= |stream| && chunk == stream[start + n..start + n + |chunk|]
    ensures stream[start..][..n] + chunk == stream[start..][..n + |chunk|]
  {
  }

  lemma Window(stream: string, start: nat, from: nat, to: nat, chunk: string)
    requires from <= to && start + to <= |stream| && chunk == stream[start + from..start + to]
    ensures stream[start..][from..to] == chunk
  {
  }

  lemma ZerosGrow(rest: string, n: nat, chunk: string)
    requires n + |chunk| <= |rest| && chunk == rest[n..n + |chunk|] && AllZero(rest[..n])
    ensures AllZero(rest[..n + |chunk|]) <==> AllZero(chunk)
    ensures AllZero(rest) ==> AllZero(chunk)
  {
    if AllZero(rest[..n + |chunk|]) {
      forall k | 0 <= k < |chunk| ensures chunk[k] == ZERO {
        assert rest[..n + |chunk|][n + k] == chunk[k];
      }
    }
    if AllZero(chunk) {
      forall k | n <= k < n + |chunk| ensures rest[k] == ZERO {
        assert rest[k] == chunk[k - n];
      }
      forall k | 0 <= k < n ensures rest[k] == ZERO {
        assert rest[k] == rest[..n][k];
      }
    }
    if AllZero(rest) {
      forall k | 0 <= k < |chunk| ensures chunk[k] == ZERO {
        assert rest[n + k] == chunk[k];
      }
    }
  }

  /** The next header if it and, at the end, the rest of the stream are within the bytes left. */
  function HeadWithin(t: string, left: int, lib: Library): Head {
    match HeaderAt(t, lib)
    case Bad => Bad
    case End => if |t| <= left then End else Bad
    case Entry(name, size) => if 512 <= left then Entry(name, size) else Bad
  }

  /** What follows a zero block decides. */
  lemma EndWithin(t: string, left: int, lib: Library)
    requires |t| >= 512 && t[..512] == Zeros(512)
    ensures HeadWithin(t, left, lib) == if
              && |t| >= 1024 && |t| <= left && t[512..1024] == Zeros(512)
              && AllZero(t[1024..]) && |t[1024..]| <= RECORD
            then End else Bad
  {
    if |t| >= 1024 {
      assert t == t[..512] + t[512..1024] + t[1024..];
      assert Zeros(|t|) == Zeros(512) + Zeros(512) + Zeros(|t| - 1024);
      assert t[512..1024] == Zeros(|t|)[512..1024] <== t == Zeros(|t|);
      assert t[1024..] == Zeros(|t|)[1024..] <== t == Zeros(|t|);
      AllZeroExactly(t[1024..]);
    }
  }

  // ---------- unpacking into a directory ----------

  /** The directory that an archive is unpacked into: files by relative name, and directories. */
  class Destination {
    var files: map<string, string>
    var dirs: set<string>

    constructor ()
      ensures files == map[] && dirs == {}
    {
      files, dirs := map[], {};
    }

    function Tree(): M.Tree
      reads this
    {
      M.Tree(files.Keys, dirs)
    }

    method MakeParents(name: string) returns (ok: bool)
      modifies this
      ensures files == old(files)
      ensures ok <==> M.MakeParents(old(Tree()), name).Some?
      ensures Tree() == if ok then M.MakeParents(old(Tree()), name).value else old(Tree())
    {
      if exists parent :: parent in M.Parents(name) && parent in files {
        return false;
      }
      dirs := dirs + M.Parents(name);
      return true;
    }

    method CreateNew(name: string) returns (ok: bool)
      modifies this
      ensures ok <==> M.CreateNew(old(Tree()), name).Some?
      ensures ok ==> Tree() == M.CreateNew(old(Tree()), name).value && files == old(files)[name := ""]
      ensures !ok ==> files == old(files) && dirs == old(dirs)
    {
      if name in files || name in dirs {
        return false;
      }
      files := files[name := ""];
      return true;
    }

    /** An empty new file, in directories that are made for it. */
    method OpenNew(name: string) returns (ok: bool)
      modifies this
      ensures ok <==> M.Create(old(Tree()), name).Some?
      ensures ok ==> Tree() == M.Create(old(Tree()), name).value && files == old(files)[name := ""]
    {
      ok := MakeParents(name);
      if ok {
        ok := CreateNew(name);
      }
    }

    /** Creates or replaces a file; a directory is in the way. */
    method WriteBytes(name: string, data: string) returns (ok: bool)
      modifies this
      ensures dirs == old(dirs) && (ok <==> name !in dirs)
      ensures files == if ok then old(files)[name := data] else old(files)
    {
      if name in dirs {
        return false;
      }
      files := files[name := data];
      return true;
    }
  }

  /** The files of the first members of an archive. */
  function Extracted(entries: seq<M.Entry>, members: seq<Member>): map<string, string>
    requires |members| <= |entries|
  {
    if members == [] then map[]
    else
      var n := |members| - 1;
      Extracted(entries, members[..n])[entries[n].name := members[n].content]
  }

  /** What is left to read decides what the whole reading gives. */
  function Finish(done: seq<Member>, rest: Option<seq<Member>>): Option<seq<Member>> {
    match rest
    case None => None
    case Some(members) => Some(done + members)
  }

  /** The next entry, if it is the listed one and within the bytes left. */
  function Accepted(t: string, left: int, e: M.Entry, lib: Library): Option<Member> {
    var m := ReadMember(t, e.name, e.size, lib);
    if m.None? || |Block(m.value)| > left || lib.sha(m.value.content) != e.digest then None else m
  }

  lemma HeadFirst(t: string, left: int, e: M.Entry, lib: Library)
    ensures Accepted(t, left, e, lib).Some? <==>
            && HeadWithin(t, left, lib) == Entry(e.name, e.size) && PayloadAt(t[512..], e.size).Some?
            && 512 + e.size + Pad(e.size) <= left && lib.sha(PayloadAt(t[512..], e.size).value) == e.digest
    ensures Accepted(t, left, e, lib).Some? ==>
              && Accepted(t, left, e, lib).value.content == PayloadAt(t[512..], e.size).value
              && |Block(Accepted(t, left, e, lib).value)| == 512 + e.size + Pad(e.size)
  {
  }

  /** Reads one listed entry, `next` if it is acceptable, and writes it to its place. */
  method UnpackEntry(reader: TarReader, e: M.Entry, lib: Library, dest: Destination, ghost next: Option<Member>)
      returns (ok: bool)
    requires reader.Valid() && next == Accepted(reader.Rest(), reader.limit - reader.pos, e, lib)
    modifies reader, dest
    ensures reader.Valid()
    ensures ok <==> next.Some? && M.Create(old(dest.Tree()), e.name).Some?
    ensures ok ==>
              && reader.pos == old(reader.pos) + |Block(next.value)|
              && dest.Tree() == M.Create(old(dest.Tree()), e.name).value
              && dest.files == old(dest.files)[e.name := next.value.content]
  {
    ghost var t, left := reader.Rest(), reader.limit - reader.pos;
    HeadFirst(t, left, e, lib);
    var head := reader.Header(lib);
    if head != Entry(e.name, e.size) {
      return false;
    }
    assert t[512..] == reader.Rest();
    ok := dest.OpenNew(e.name);
    if !ok {
      return false;
    }
    var content;
    content, ok := reader.Payload(e.size);
    dest.files := dest.files[e.name := content];
    ok := ok && lib.sha(content) == e.digest;
  }

  /** A stream longer than the limit is no archive. */
  lemma LongStreamsFail(stream: string, maxBytes: int, lib: Library)
    requires |stream| > Limit(maxBytes)
    ensures Unpack(stream, maxBytes, lib).None?
  {
    if Unpack(stream, maxBytes, lib).Some? {
      var a := Unpack(stream, maxBytes, lib).value;
      UnpackExactly(stream, maxBytes, lib, a);
      ArchivesFitTheLimit(stream, a, maxBytes, lib);
    }
  }

  lemma NextMember(t: string, left: int, entries: seq<M.Entry>, done: seq<Member>, lib: Library)
    requires entries != []
    ensures var m := Accepted(t, left, entries[0], lib);
      Finish(done, ReadMembers(t, entries, lib)) ==
        if m.Some? then
          BlockIsThere(t, entries[0], lib, m.value);
          Finish(done + [m.value], ReadMembers(t[|Block(m.value)|..], entries[1..], lib))
        else if |t| > left then Finish(done, ReadMembers(t, entries, lib))
        else None
  {
    var m := ReadMember(t, entries[0].name, entries[0].size, lib);
    if m.Some? {
      BlockIsThere(t, entries[0], lib, m.value);
      var rest := ReadMembers(t[|Block(m.value)|..], entries[1..], lib);
      if rest.Some? {
        assert done + ([m.value] + rest.value) == (done + [m.value]) + rest.value;
      }
    }
  }

  lemma BlockIsThere(t: string, e: M.Entry, lib: Library, m: Member)
    requires ReadMember(t, e.name, e.size, lib) == Some(m)
    ensures |Block(m)| <= |t|
  {
    ReadMemberExactly(t, e.name, e.size, lib, m);
  }

  function WithManifest(m: Member, entries: seq<M.Entry>, members: Option<seq<Member>>): Option<Archive> {
    match members
    case None => None
    case Some(ms) => Some(Archive(m, entries, ms))
  }

  /** The manifest entry, if it is first and within the bytes left. */
  function ManifestWithin(t: string, left: int, lib: Library): Option<Member> {
    var m := ReadManifest(t, lib);
    if m.None? || |Block(m.value)| > left then None else m
  }

  lemma ManifestHead(t: string, left: int, lib: Library)
    ensures var head := HeadWithin(t, left, lib);
      && (ManifestWithin(t, left, lib).Some? <==>
            && head.Entry? && head.name == M.MANIFEST_NAME && head.size <= M.MAX_MANIFEST
            && PayloadAt(t[512..], head.size).Some? && 512 + head.size + Pad(head.size) <= left)
      && (ManifestWithin(t, left, lib).Some? ==>
            && ManifestWithin(t, left, lib).value.content == PayloadAt(t[512..], head.size).value
            && |Block(ManifestWithin(t, left, lib).value)| == 512 + head.size + Pad(head.size))
  {
  }

  lemma ManifestRead(t: string, left: int, lib: Library, size: nat)
    requires HeadWithin(t, left, lib) == Entry(M.MANIFEST_NAME, size) && size <= M.MAX_MANIFEST
    requires PayloadAt(t[512..], size).Some? && 512 + size + Pad(size) <= left
    ensures ManifestWithin(t, left, lib).Some? && ReadManifest(t, lib) == ManifestWithin(t, left, lib)
    ensures ManifestWithin(t, left, lib).value.content == PayloadAt(t[512..], size).value
    ensures |Block(ManifestWithin(t, left, lib).value)| == 512 + size + Pad(size)
  {
    ManifestHead(t, left, lib);
  }

  /** The entries of the manifest within the bytes left, from its text. */
  function EntriesIn(m: Option<Member>, maxBytes: int, lib: Library): Option<seq<M.Entry>> {
    match m
    case None => None
    case Some(member) => Entries(member.content, maxBytes, lib)
  }

  function EntriesWithin(t: string, left: int, maxBytes: int, lib: Library): Option<seq<M.Entry>> {
    EntriesIn(ManifestWithin(t, left, lib), maxBytes, lib)
  }

  /** After the manifest, the entries decide. */
  lemma UnpackAfterManifest(stream: string, maxBytes: int, lib: Library)
    ensures var entries := EntriesWithin(stream, Limit(maxBytes), maxBytes, lib);
      if entries.None? then Unpack(stream, maxBytes, lib).None?
      else
        var m := ReadManifest(stream, lib).value;
        Unpack(stream, maxBytes, lib) ==
            WithManifest(m, entries.value, ReadMembers(AfterManifest(stream, lib), entries.value, lib))
  {
    if ReadManifest(stream, lib).Some? {
      var m := ReadManifest(stream, lib).value;
      ReadManifestExactly(stream, lib, m);
      if |Block(m)| > Limit(maxBytes) {
        LongStreamsFail(stream, maxBytes, lib);
      }
    }
  }

  /** Reads the manifest entry. */
  method ReadRaw(reader: TarReader, lib: Library) returns (raw: string, ok: bool)
    requires reader.Valid()
    modifies reader
    ensures reader.Valid()
    ensures ok <==> ManifestWithin(old(reader.Rest()), reader.limit - old(reader.pos), lib).Some?
    ensures ok ==>
              var m := ManifestWithin(old(reader.Rest()), reader.limit - old(reader.pos), lib).value;
              raw == m.content && reader.pos == old(reader.pos) + |Block(m)|
  {
    ghost var t, left := reader.Rest(), reader.limit - reader.pos;
    ManifestHead(t, left, lib);
    raw, ok := "", false;
    var first := reader.Header(lib);
    if !first.Entry? || first.name != M.MANIFEST_NAME || first.size > M.MAX_MANIFEST {
      return;
    }
    assert t[512..] == reader.Rest();
    raw, ok := reader.Payload(first.size);
    if ok {
      ManifestRead(t, left, lib, first.size);
    }
  }

  /** Reads and checks the manifest. */
  method UnpackManifest(reader: TarReader, maxBytes: int, lib: Library)
      returns (raw: string, entries: Option<seq<M.Entry>>)
    requires reader.Valid()
    modifies reader
    ensures reader.Valid()
    ensures var m := ManifestWithin(old(reader.Rest()), reader.limit - old(reader.pos), lib);
      && entries == EntriesIn(m, maxBytes, lib)
      && (entries.Some? ==> raw == m.value.content && reader.pos == old(reader.pos) + |Block(m.value)|)
  {
    var ok;
    raw, ok := ReadRaw(reader, lib);
    if !ok {
      return raw, None;
    }
    var doc := lib.json(raw);
    if doc.None? {
      return raw, None;
    }
    entries := M.ParseManifest(doc.value, maxBytes, lib.utc);
  }

  lemma {:induction false} PrefixCreated(names: seq<string>, n: nat)
    requires n <= |names| && M.CreateAll(names).Some?
    ensures M.CreateAll(names[..n]).Some?
    decreases |names|
  {
    if n < |names| {
      PrefixCreated(names[..|names| - 1], n);
      assert names[..|names| - 1][..n] == names[..n];
    } else {
      assert names[..n] == names;
    }
  }

  lemma NextFile(names: seq<string>, i: nat)
    requires M.CreateAll(names).Some? && i < |names|
    ensures M.CreateAll(names[..i]).Some? && M.CreateAll(names[..i + 1]).Some?
    ensures M.CreateAll(names[..i + 1]) == M.Create(M.CreateAll(names[..i]).value, names[i])
  {
    PrefixCreated(names, i);
    PrefixCreated(names, i + 1);
    assert names[..i + 1][..i] == names[..i];
  }

  lemma OneMoreExtracted(entries: seq<M.Entry>, done: seq<Member>, m: Member)
    requires |done| < |entries|
    ensures Extracted(entries, done + [m]) == Extracted(entries, done)[entries[|done|].name := m.content]
  {
    assert (done + [m])[..|done|] == done;
  }

  /** Half-way: `done` members are read and written, and `t` is left. */
  ghost predicate Along(members: Option<seq<Member>>, list: seq<M.Entry>, t: string, done: seq<Member>,
                        files: map<string, string>, tree: M.Tree, lib: Library) {
    && |done| <= |list|
    && members == Finish(done, ReadMembers(t, list[|done|..], lib))
    && files == Extracted(list, done)
    && M.CreateAll(M.Names(list)[..|done|]) == Some(tree)
  }

  /**
   One more entry: either it is refused, and so is the archive or the limit is in the way, or it is half-way still.
   */
  lemma AlongNext(members: Option<seq<Member>>, list: seq<M.Entry>, t: string, done: seq<Member>,
                  files: map<string, string>, tree: M.Tree, lib: Library, left: int)
    requires Along(members, list, t, done, files, tree, lib) && |done| < |list| && M.CreateAll(M.Names(list)).Some?
    ensures M.Create(tree, list[|done|].name).Some?
    ensures var next := Accepted(t, left, list[|done|], lib);
      if next.None? then members.None? || |t| > left
      else
        && |Block(next.value)| <= |t|
        && Along(members, list, t[|Block(next.value)|..], done + [next.value],
                 files[list[|done|].name := next.value.content], M.Create(tree, list[|done|].name).value, lib)
  {
    AlongTree(members, list, t, done, files, tree, lib);
    AlongMembers(members, list, t, done, files, tree, lib, left);
    var next := Accepted(t, left, list[|done|], lib);
    if next.Some? {
      var done' := done + [next.value];
      OneMoreExtracted(list, done, next.value);
      assert |done'| == |done| + 1;
    }
  }

  lemma AlongTree(members: Option<seq<Member>>, list: seq<M.Entry>, t: string, done: seq<Member>,
                  files: map<string, string>, tree: M.Tree, lib: Library)
    requires Along(members, list, t, done, files, tree, lib) && |done| < |list| && M.CreateAll(M.Names(list)).Some?
    ensures M.Create(tree, list[|done|].name).Some?
    ensures M.CreateAll(M.Names(list)[..|done| + 1]) == M.Create(tree, list[|done|].name)
  {
    NextFile(M.Names(list), |done|);
  }

  lemma AlongMembers(members: Option<seq<Member>>, list: seq<M.Entry>, t: string, done: seq<Member>,
                     files: map<string, string>, tree: M.Tree, lib: Library, left: int)
    requires Along(members, list, t, done, files, tree, lib) && |done| < |list|
    ensures var next := Accepted(t, left, list[|done|], lib);
      if next.None? then members.None? || |t| > left
      else
        && |Block(next.value)| <= |t|
        && members == Finish(done + [next.value], ReadMembers(t[|Block(next.value)|..], list[|done| + 1..], lib))
  {
    var i := |done|;
    NextMember(t, left, list[i..], done, lib);
    var next := Accepted(t, left, list[i], lib);
    if next.Some? {
      BlockIsThere(t, list[i], lib, next.value);
      assert list[i..][1..] == list[i + 1..];
    }
  }

  lemma AlongStarts(list: seq<M.Entry>, t: string, lib: Library)
    ensures Along(ReadMembers(t, list, lib), list, t, [], map[], M.Tree({}, {}), lib)
  {
    var members := ReadMembers(t, list, lib);
    assert list[0..] == list && M.Names(list)[..0] == [];
    assert members.Some? ==> [] + members.value == members.value;
  }

  lemma AlongEnds(members: Option<seq<Member>>, list: seq<M.Entry>, t: string, done: seq<Member>,
                  files: map<string, string>, tree: M.Tree, lib: Library)
    requires Along(members, list, t, done, files, tree, lib) && |done| == |list|
    ensures members == if Ending(t) then Some(done) else None
    ensures M.CreateAll(M.Names(list)) == Some(tree)
  {
    EndingIsEnd(t, lib);
    assert M.Names(list)[..|list|] == M.Names(list);
    assert done + [] == done;
  }

  method UnpackNext(reader: TarReader, list: seq<M.Entry>, i: nat, lib: Library, dest: Destination,
                    ghost members: Option<seq<Member>>, ghost done: seq<Member>)
                        returns (ok: bool, ghost done': seq<Member>)
    requires reader.Valid() && M.CreateAll(M.Names(list)).Some? && |done| == i < |list|
    requires Along(members, list, reader.Rest(), done, dest.files, dest.Tree(), lib)
    modifies reader, dest
    ensures reader.Valid()
    ensures !ok ==> members.None? || |reader.stream| > reader.limit
    ensures ok ==> |done'| == i + 1 && Along(members, list, reader.Rest(), done', dest.files, dest.Tree(), lib)
  {
    ghost var t, left, e, files, tree := reader.Rest(), reader.limit - reader.pos, list[i], dest.files, dest.Tree();
    ghost var next := NextOf(members, list, t, done, files, tree, lib, left);
    done' := done;
    ok := UnpackEntry(reader, list[i], lib, dest, next);
    if ok {
      done' := done + [next.value];
      assert t[|Block(next.value)|..] == reader.Rest();
      AlongSame(members, list, t[|Block(next.value)|..], reader.Rest(), done', files[e.name := next.value.content],
                dest.files, M.Create(tree, e.name).value, dest.Tree(), lib);
    }
  }

  lemma NextOf(members: Option<seq<Member>>, list: seq<M.Entry>, t: string, done: seq<Member>,
               files: map<string, string>, tree: M.Tree, lib: Library, left: int) returns (next: Option<Member>)
    requires Along(members, list, t, done, files, tree, lib) && |done| < |list| && M.CreateAll(M.Names(list)).Some?
    ensures next == Accepted(t, left, list[|done|], lib) && M.Create(tree, list[|done|].name).Some?
    ensures next.None? ==> members.None? || |t| > left
    ensures next.Some? ==>
              && |Block(next.value)| <= |t|
              && Along(members, list, t[|Block(next.value)|..], done + [next.value],
                       files[list[|done|].name := next.value.content], M.Create(tree, list[|done|].name).value, lib)
  {
    next := Accepted(t, left, list[|done|], lib);
    AlongNext(members, list, t, done, files, tree, lib, left);
  }

  lemma AlongSame(members: Option<seq<Member>>, list: seq<M.Entry>, t: string, t': string, done: seq<Member>,
                  files: map<string, string>, files': map<string, string>, tree: M.Tree, tree': M.Tree, lib: Library)
    requires Along(members, list, t, done, files, tree, lib) && t == t' && files == files' && tree == tree'
    ensures Along(members, list, t', done, files', tree', lib)
  {
  }

  /** Reads the listed entries and the end. */
  method UnpackEntries(reader: TarReader, list: seq<M.Entry>, lib: Library, dest: Destination) returns (ok: bool)
    requires reader.Valid() && M.CreateAll(M.Names(list)).Some?
    requires dest.files == map[] && dest.dirs == {}
    modifies reader, dest
    ensures !ok ==> ReadMembers(old(reader.Rest()), list, lib).None? || |reader.stream| > reader.limit
    ensures ok ==>
              var members := ReadMembers(old(reader.Rest()), list, lib);
              && members.Some? && |members.value| == |list|
              && dest.files == Extracted(list, members.value)
              && M.CreateAll(M.Names(list)) == Some(dest.Tree())
  {
    ghost var members, done := ReadMembers(reader.Rest(), list, lib), [];
    AlongStarts(list, reader.Rest(), lib);
    assert dest.Tree() == M.Tree({}, {});
    for i := 0 to |list|
      invariant reader.Valid() && |done| == i
      invariant Along(members, list, reader.Rest(), done, dest.files, dest.Tree(), lib)
    {
      ok, done := UnpackNext(reader, list, i, lib, dest, members, done);
      if !ok {
        return;
      }
    }
    AlongEnds(members, list, reader.Rest(), done, dest.files, dest.Tree(), lib);
    EndingIsEnd(reader.Rest(), lib);
    var last := reader.Header(lib);
    ok := last == End;
  }

  /** Nothing is in the way of the files of an accepted manifest, or of the manifest itself. */
  lemma AcceptedTree(raw: string, maxBytes: int, lib: Library)
    requires Entries(raw, maxBytes, lib).Some?
    ensures var names := M.Names(Entries(raw, maxBytes, lib).value);
      && M.CreateAll(names).Some?
      && M.CreateAll(names).value.dirs == M.AllParents(names) && M.MANIFEST_NAME !in M.AllParents(names)
  {
    EntriesAreAcceptable(raw, maxBytes, lib);
    var entries := Entries(raw, maxBytes, lib).value;
    M.CreateAllExactly(M.Names(entries));
    M.ManifestNameIsNoDirectory(entries, maxBytes);
  }

  /** The files that an archive holds, and the manifest. */
  function AllFiles(a: Archive): map<string, string>
    requires |a.members| <= |a.entries|
  {
    Extracted(a.entries, a.members)[M.MANIFEST_NAME := a.manifest.content]
  }

  lemma ManifestIsThere(t: string, lib: Library, m: Member)
    requires ReadManifest(t, lib) == Some(m)
    ensures |Block(m)| <= |t|
  {
    ReadManifestExactly(t, lib, m);
  }

  /** What follows the manifest entry. */
  function AfterManifest(t: string, lib: Library): string {
    match ReadManifest(t, lib)
    case None => ""
    case Some(m) => ManifestIsThere(t, lib, m); t[|Block(m)|..]
  }

  /** Reads the listed entries and the end, and writes the manifest. */
  method UnpackListed(reader: TarReader, raw: string, list: seq<M.Entry>, lib: Library, dest: Destination)
      returns (ok: bool)
    requires reader.Valid() && M.CreateAll(M.Names(list)).Some?
    requires M.MANIFEST_NAME !in M.CreateAll(M.Names(list)).value.dirs
    requires dest.files == map[] && dest.dirs == {}
    modifies reader, dest
    ensures !ok ==> ReadMembers(old(reader.Rest()), list, lib).None? || |reader.stream| > reader.limit
    ensures ok ==>
              var members := ReadMembers(old(reader.Rest()), list, lib);
              && members.Some? && |members.value| == |list|
              && dest.files == Extracted(list, members.value)[M.MANIFEST_NAME := raw]
              && dest.dirs == M.CreateAll(M.Names(list)).value.dirs
  {
    ok := UnpackEntries(reader, list, lib, dest);
    if ok {
      assert dest.Tree().dirs == dest.dirs;
      ok := dest.WriteBytes(M.MANIFEST_NAME, raw);
    }
  }

  /** The manifest, and the list that it gives. */
  method UnpackHead(reader: TarReader, maxBytes: int, lib: Library)
      returns (raw: string, entries: Option<seq<M.Entry>>)
    requires reader.Valid()
    modifies reader
    ensures reader.Valid()
    ensures entries == EntriesWithin(old(reader.Rest()), reader.limit - old(reader.pos), maxBytes, lib)
    ensures entries.Some? ==>
              && reader.Rest() == AfterManifest(old(reader.Rest()), lib)
              && ReadManifest(old(reader.Rest()), lib).Some?
              && raw == ReadManifest(old(reader.Rest()), lib).value.content
              && M.CreateAll(M.Names(entries.value)).Some?
              && M.CreateAll(M.Names(entries.value)).value.dirs == M.AllParents(M.Names(entries.value))
              && M.MANIFEST_NAME !in M.AllParents(M.Names(entries.value))
  {
    ghost var t, was := reader.Rest(), reader.pos;
    raw, entries := UnpackManifest(reader, maxBytes, lib);
    if entries.Some? {
      ListWithin(t, reader.limit - was, maxBytes, lib);
      RestOfRest(reader.stream, was, reader.pos);
      AcceptedTree(raw, maxBytes, lib);
    }
  }

  lemma RestOfRest(stream: string, from: nat, to: nat)
    requires from <= to <= |stream|
    ensures stream[from..][to - from..] == stream[to..]
  {
  }

  /** With a list, the manifest is there and what follows it is behind its block. */
  lemma ListWithin(t: string, left: int, maxBytes: int, lib: Library)
    requires EntriesWithin(t, left, maxBytes, lib).Some?
    ensures var m := ReadManifest(t, lib);
      && m.Some? && m == ManifestWithin(t, left, lib) && |Block(m.value)| <= |t|
      && EntriesWithin(t, left, maxBytes, lib) == Entries(m.value.content, maxBytes, lib)
      && AfterManifest(t, lib) == t[|Block(m.value)|..]
  {
    ManifestIsThere(t, lib, ReadManifest(t, lib).value);
  }

  /** The listed members, if there is a list and they follow the manifest. */
  function MembersAfter(t: string, list: Option<seq<M.Entry>>, lib: Library): Option<seq<Member>> {
    if list.Some? then ReadMembers(AfterManifest(t, lib), list.value, lib) else None
  }

  method UnpackStream(reader: TarReader, maxBytes: int, lib: Library, dest: Destination)
      returns (raw: string, entries: Option<seq<M.Entry>>)
    requires reader.Valid()
    requires dest.files == map[] && dest.dirs == {}
    modifies reader, dest
    ensures var t := old(reader.Rest());
      var list := EntriesWithin(t, reader.limit - old(reader.pos), maxBytes, lib);
      var members := MembersAfter(t, list, lib);
      && (entries.None? ==> members.None? || |reader.stream| > reader.limit)
      && (entries.Some? ==>
            && members.Some? && entries == list && |members.value| == |list.value|
            && raw == ReadManifest(t, lib).value.content
            && dest.files == Extracted(list.value, members.value)[M.MANIFEST_NAME := raw]
            && dest.dirs == M.AllParents(M.Names(list.value)))
  {
    ghost var t := reader.Rest();
    raw, entries := UnpackHead(reader, maxBytes, lib);
    if entries.None? {
      return;
    }
    assert MembersAfter(t, entries, lib) == ReadMembers(reader.Rest(), entries.value, lib);
    var ok := UnpackListed(reader, raw, entries.value, lib, dest);
    if !ok {
      return raw, None;
    }
  }

  /**
   The whole reader: it succeeds exactly on archives, whatever their size, and then the directory holds exactly the
   listed files and the manifest.
   */
  method UnpackArchive(stream: string, maxBytes: int, lib: Library, dest: Destination)
      returns (entries: Option<seq<M.Entry>>)
    requires dest.files == map[] && dest.dirs == {}
    modifies dest
    ensures entries.Some? <==> Unpack(stream, maxBytes, lib).Some?
    ensures entries.Some? ==>
              var a := Unpack(stream, maxBytes, lib).value;
              && entries.value == a.entries && |a.members| == |a.entries|
              && dest.files == AllFiles(a) && dest.dirs == M.AllParents(M.Names(a.entries))
  {
    var reader := new TarReader(stream, Limit(maxBytes));
    assert reader.Rest() == stream;
    UnpackAfterManifest(stream, maxBytes, lib);
    if |stream| > Limit(maxBytes) {
      LongStreamsFail(stream, maxBytes, lib);
    }
    var raw;
    raw, entries := UnpackStream(reader, maxBytes, lib, dest);
  }

  /** The reader with its own header parser. */
  method UnpackBackup(stream: string, maxBytes: int, dest: Destination, utf8: string -> bool,
                      json: string -> Option<M.Json>,
                      utc: string -> bool, sha: string -> string) returns (entries: Option<seq<M.Entry>>)
    requires dest.files == map[] && dest.dirs == {}
    modifies dest
    ensures var a := Unpack(stream, maxBytes, Ustar(utf8, json, utc, sha));
      && (entries.Some? <==> a.Some?)
      && (a.Some? ==> entries.value == a.value.entries && |a.value.members| == |a.value.entries|)
      && (a.Some? ==> dest.files == AllFiles(a.value))
  {
    entries := UnpackArchive(stream, maxBytes, Ustar(utf8, json, utc, sha), dest);
  }

  lemma {:induction false} ExtractedExactly(entries: seq<M.Entry>, members: seq<Member>)
    requires |members| <= |entries| && M.Distinct(M.Names(entries))
    ensures Extracted(entries, members).Keys == set k | 0 <= k < |members| :: entries[k].name
    ensures forall k :: 0 <= k < |members| ==> Extracted(entries, members)[entries[k].name] == members[k].content
    decreases |members|
  {
    if members != [] {
      var n := |members| - 1;
      ExtractedExactly(entries, members[..n]);
      forall k | 0 <= k < n ensures entries[k].name != entries[n].name {
        assert M.Names(entries)[k] != M.Names(entries)[n];
      }
    }
  }

  /** Every listed file is there with the contents that its digest names, and nothing else but the manifest. */
  lemma FilesAreTheListedOnes(t: string, a: Archive, maxBytes: int, lib: Library)
    requires IsArchive(t, a, maxBytes, lib)
    ensures AllFiles(a).Keys == M.NameSet(M.Names(a.entries)) + {M.MANIFEST_NAME}
    ensures forall k :: 0 <= k < |a.entries| ==>
              && a.entries[k].name in AllFiles(a)
              && var content := AllFiles(a)[a.entries[k].name];
              && content == a.members[k].content
              && |content| == a.entries[k].size && lib.sha(content) == a.entries[k].digest
    ensures AllFiles(a)[M.MANIFEST_NAME] == a.manifest.content
  {
    AcceptedNames(a.manifest.content, maxBytes, lib);
    FilesOfNames(a);
    MatchesEach(a.members, a.entries, lib);
  }

  lemma MatchesEach(ms: seq<Member>, entries: seq<M.Entry>, lib: Library)
    requires Matches(ms, entries, lib)
    ensures |ms| == |entries|
    ensures forall k :: 0 <= k < |entries| ==>
      |ms[k].content| == entries[k].size && lib.sha(ms[k].content) == entries[k].digest
  {
    forall k | 0 <= k < |entries| ensures |ms[k].content| == entries[k].size
        && lib.sha(ms[k].content) == entries[k].digest {
      assert MemberIs(ms[k], entries[k].name, entries[k].size, lib);
    }
  }

  lemma AcceptedNames(raw: string, maxBytes: int, lib: Library)
    requires Entries(raw, maxBytes, lib).Some?
    ensures var names := M.Names(Entries(raw, maxBytes, lib).value);
      M.Distinct(names) && M.MANIFEST_NAME !in M.NameSet(names)
  {
    EntriesAreAcceptable(raw, maxBytes, lib);
    M.ManifestNameIsNoDirectory(Entries(raw, maxBytes, lib).value, maxBytes);
  }

  lemma FilesOfNames(a: Archive)
    requires |a.members| == |a.entries|
    requires M.Distinct(M.Names(a.entries)) && M.MANIFEST_NAME !in M.NameSet(M.Names(a.entries))
    ensures AllFiles(a).Keys == M.NameSet(M.Names(a.entries)) + {M.MANIFEST_NAME}
    ensures forall k :: 0 <= k < |a.entries| ==>
              a.entries[k].name in AllFiles(a) && AllFiles(a)[a.entries[k].name] == a.members[k].content
  {
    ExtractedExactly(a.entries, a.members);
    NamesAsSet(a.entries);
  }

  lemma NamesAsSet(entries: seq<M.Entry>)
    ensures M.NameSet(M.Names(entries)) == set k | 0 <= k < |entries| :: entries[k].name
  {
    forall k | 0 <= k < |entries| ensures entries[k].name in M.NameSet(M.Names(entries)) {
      assert M.Names(entries)[k] == entries[k].name;
    }
  }
}
