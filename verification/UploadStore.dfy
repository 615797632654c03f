/**
 The critical sections of the upload as the source runs them: on a shared session table and
 a file, step by step.  Each method is proved against its function in `UploadProtocol`.
 */
module UploadStore {
  import opened Prelude
  import opened ChunkGeometry
  import P = UploadProtocol
  import PartNames

  type Bytes = P.Bytes

  /** Two writes in a row are one write of both pieces. */
  lemma WritesCompose(d: Bytes, off: nat, a: Bytes, b: Bytes)
    ensures P.WriteAt(P.WriteAt(d, off, a), off + |a|, b) == P.WriteAt(d, off, a + b)
  {
    var one, two := P.WriteAt(d, off, a + b), P.WriteAt(P.WriteAt(d, off, a), off + |a|, b);
    if a == [] {
      assert a + b == b;
    } else if b == [] {
      assert a + b == a;
    } else {
      assert |one| == |two|;
      forall k | 0 <= k < |one| ensures one[k] == two[k] {
      }
    }
  }

  function Flatten(pieces: seq<Bytes>): Bytes {
    if pieces == [] then [] else pieces[0] + Flatten(pieces[1..])
  }

  lemma {:induction false} FlattenSnoc(pieces: seq<Bytes>, last: Bytes)
    ensures Flatten(pieces + [last]) == Flatten(pieces) + last
  {
    if pieces == [] {
      assert [last][1..] == [];
    } else {
      assert (pieces + [last])[1..] == pieces[1..] + [last];
      FlattenSnoc(pieces[1..], last);
    }
  }

  lemma FlattenPrefix(pieces: seq<Bytes>, n: nat)
    requires n < |pieces|
    ensures Flatten(pieces[..n + 1]) == Flatten(pieces[..n]) + pieces[n]
  {
    FlattenSnoc(pieces[..n], pieces[n]);
    assert pieces[..n + 1] == pieces[..n] + [pieces[n]];
  }

  lemma {:induction false} FlattenGrows(pieces: seq<Bytes>, n: nat)
    requires n <= |pieces|
    ensures |Flatten(pieces[..n])| <= |Flatten(pieces)|
    ensures Flatten(pieces)[..|Flatten(pieces[..n])|] == Flatten(pieces[..n])
  {
    if n > 0 {
      FlattenGrows(pieces[1..], n - 1);
      assert pieces[..n][1..] == pieces[1..][..n - 1];
    }
  }

  /** An open file. */
  class File {
    var data: Bytes

    constructor (data: Bytes)
      ensures this.data == data
    {
      this.data := data;
    }
  }

  /** Writes at an offset that advances past what was written. */
  class OffsetFileWriter {
    const file: File
    var offset: nat

    constructor (file: File, offset: nat)
      ensures this.file == file && this.offset == offset
    {
      this.file, this.offset := file, offset;
    }

    /** The device takes at most `room` bytes; a short write is an error. */
    method Write(data: Bytes, room: nat) returns (written: nat, ok: bool)
      modifies this, file
      ensures written == (if room < |data| then room else |data|) && ok == (written == |data|)
      ensures file.data == P.WriteAt(old(file.data), old(offset), data[..written])
      ensures offset == old(offset) + written
    {
      written := if room < |data| then room else |data|;
      file.data := P.WriteAt(file.data, offset, data[..written]);
      offset := offset + written;
      ok := written == |data|;
    }
  }

  function Cut(piece: Bytes, left: nat): Bytes {
    if |piece| < left then piece else piece[..left]
  }

  /** What a stream takes of the first n pieces. */
  function Taken(body: seq<Bytes>, n: nat, expected: nat): Bytes
    requires n <= |body|
  {
    Cut(Flatten(body[..n]), expected)
  }

  lemma CutContinues(a: Bytes, b: Bytes, expected: nat)
    requires |a| < expected
    ensures Cut(a + b, expected) == Cut(a, expected) + Cut(b, expected - |a|)
  {
  }

  /** The file after n pieces. */
  function Filled(was: Bytes, off: nat, body: seq<Bytes>, n: nat, expected: nat): Bytes
    requires n <= |body|
  {
    P.WriteAt(was, off, Taken(body, n, expected))
  }

  /** The next piece, cut at what is still expected, goes right behind what was taken so far. */
  lemma NextPiece(was: Bytes, off: nat, body: seq<Bytes>, n: nat, expected: nat, piece: Bytes)
    requires n < |body| && |Taken(body, n, expected)| < expected
    requires piece == Cut(body[n], expected - |Taken(body, n, expected)|)
    ensures |Taken(body, n + 1, expected)| == |Taken(body, n, expected)| + |piece|
    ensures P.WriteAt(Filled(was, off, body, n, expected), off + |Taken(body, n, expected)|, piece[..|piece|])
         == Filled(was, off, body, n + 1, expected)
  {
    FlattenPrefix(body, n);
    CutContinues(Flatten(body[..n]), body[n], expected);
    WritesCompose(was, off, Taken(body, n, expected), piece);
    assert piece[..|piece|] == piece;
  }

  lemma NothingTaken(was: Bytes, off: nat, body: seq<Bytes>, expected: nat)
    ensures Taken(body, 0, expected) == [] && Filled(was, off, body, 0, expected) == was
  {
    assert body[..0] == [];
  }

  /** When the pieces or the expected bytes are used up, all that can be taken was taken. */
  lemma AllTaken(body: seq<Bytes>, n: nat, expected: nat)
    requires n <= |body| && (n == |body| || |Taken(body, n, expected)| == expected)
    ensures var all, m := Flatten(body), |Taken(body, n, expected)|;
      m == (if |all| < expected then |all| else expected) && Taken(body, n, expected) == all[..m]
  {
    FlattenGrows(body, n);
    assert body[..|body|] == body;
  }

  /**
   The copy of one body: whatever pieces it arrives in, the file receives its first `expected` bytes at the
   chunk's offset, and `written` says how many there were.
   */
  method CopyBody(file: File, spec: Spec, body: seq<Bytes>) returns (written: nat)
    requires spec.offset >= 0 && spec.expected >= 0
    modifies file
    ensures var all := Flatten(body);
      && written == (if |all| < spec.expected then |all| else spec.expected)
      && file.data == P.WriteAt(old(file.data), spec.offset, all[..written])
  {
    var writer := new OffsetFileWriter(file, spec.offset);
    written := 0;
    ghost var was := file.data;
    var n := 0;
    NothingTaken(was, spec.offset, body, spec.expected);
    while n < |body| && written < spec.expected
      invariant 0 <= n <= |body| && written == |Taken(body, n, spec.expected)| <= spec.expected
      invariant writer.file == file && fresh(writer) && writer.offset == spec.offset + written
      invariant file.data == Filled(was, spec.offset, body, n, spec.expected)
    {
      var piece := Cut(body[n], spec.expected - written);
      NextPiece(was, spec.offset, body, n, spec.expected, piece);
      var k, ok := writer.Write(piece, |piece|);
      written := written + k;
      n := n + 1;
    }
    AllTaken(body, n, spec.expected);
  }

  /** The session table and the files it names. */
  class Uploads {
    var chunks: map<string, P.Session>
    var files: P.Files

    ghost function Abs(): P.Store
      reads this
    {
      P.Store(chunks, files, PartNames.PartPath)
    }

    constructor (files: P.Files)
      ensures Abs() == P.Store(map[], files, PartNames.PartPath)
    {
      chunks, this.files := map[], files;
    }

    method EnterStream(spec: Spec) returns (r: Result<P.Path, P.UploadError>)
      modifies this
      ensures (Abs(), r) == P.Enter(old(Abs()), spec)
    {
      var exists_ := spec.upload in chunks;
      if spec.first {
        if !exists_ {
          var part := PartNames.PartPath(spec.path, spec.upload);
          files := P.CreateEmpty(files, part);
          chunks := chunks[spec.upload := P.Session(spec.total, spec.chunk, spec.path, spec.count, {}, Some(part))];
        }
      } else if !exists_ {
        return Failure(P.UnknownSession);
      }
      var state := chunks[spec.upload];
      if state.target != "" && state.target != spec.path {
        return Failure(P.TargetMismatch);
      }
      if state.total != 0 && state.total != spec.total {
        return Failure(P.TotalMismatch);
      }
      if state.chunk != 0 && state.chunk != spec.chunk {
        return Failure(P.ChunkMismatch);
      }
      if state.count != 0 && state.count != spec.count {
        return Failure(P.CountMismatch);
      }
      match state.temp
      case Some(part) => return Success(part);
      case None => return Success(PartNames.PartPath(spec.path, spec.upload));
    }

    method RecordChunk(spec: Spec, part: P.Path) returns (err: Option<P.UploadError>)
      modifies `chunks
      ensures (Abs(), err) == P.Record(old(Abs()), spec, part)
    {
      if spec.upload !in chunks {
        return Some(P.UnknownSession);
      }
      var state := chunks[spec.upload];
      state := state.(total := spec.total, chunk := spec.chunk, count := spec.count);
      if state.target == "" {
        state := state.(target := spec.path);
      }
      state := state.(parts := state.parts + {spec.index}, temp := Some(part));
      chunks := chunks[spec.upload := state];
      return None;
    }

    method CheckCommit(r: P.CommitRequest) returns (part: Result<P.Path, P.UploadError>)
      ensures part == P.CheckCommit(Abs(), r)
    {
      if r.upload !in chunks {
        return Failure(P.UnknownSession);
      }
      var state := chunks[r.upload];
      if state.target != "" && state.target != r.path {
        return Failure(P.TargetMismatch);
      }
      if state.total != 0 && state.total != r.total {
        return Failure(P.TotalMismatch);
      }
      if state.chunk != 0 && state.chunk != r.chunk {
        return Failure(P.ChunkMismatch);
      }
      if state.count != 0 && state.count != r.count {
        return Failure(P.CountMismatch);
      }
      if |state.parts| != r.count {
        return Failure(P.Incomplete);
      }
      match state.temp
      case Some(p) => return Success(p);
      case None => return Failure(P.PartMissing);
    }

    method RemoveSession(u: string, path: string) returns (r: Result<Option<P.Path>, P.UploadError>)
      requires u in chunks
      modifies this
      ensures (Abs(), r) == P.RemoveSession(old(Abs()), u, path)
    {
      var state := chunks[u];
      if path != "" && state.target != "" && path != state.target {
        return Failure(P.TargetMismatch);
      }
      if state.temp.Some? {
        files := P.Remove(files, state.temp.value);
      }
      chunks := chunks - {u};
      return Success(state.temp);
    }
  }
}
