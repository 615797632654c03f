/**
 The chunked upload protocol (`agent/server/file_stream.go`, `agent/server/files.go`).

 Streams, commits and cancels run concurrently.  Each mutex-protected section, each file
 system call and each delivered piece of a body is one atomic event, and events of
 different processes interleave freely.  The file system maps paths to inodes, so an open
 file follows its inode when the path is renamed away.
 */
module UploadProtocol {
  import opened Prelude
  import opened ChunkGeometry
  import opened PartNames
  import L = UploadLifecycle

  // ---------- files ----------

  type Path = string

  type Bytes = seq<byte>

  datatype Files = Files(names: map<Path, nat>, data: map<nat, Bytes>, next: nat)

  /** A positioned write: it extends the file when it has to, with zeros in any gap. */
  function WriteAt(d: Bytes, off: nat, b: Bytes): Bytes {
    if b == [] then d
    else seq(if |d| < off + |b| then off + |b| else |d|,
             k requires 0 <= k => if off <= k < off + |b| then b[k - off] else if k < |d| then d[k] else 0)
  }

  function Content(f: Files, p: Path): Bytes
    requires p in f.names
  {
    if f.names[p] in f.data then f.data[f.names[p]] else []
  }

  function Create(f: Files, p: Path): Files {
    if p in f.names then f else Files(f.names[p := f.next], f.data[f.next := []], f.next + 1)
  }

  function SetInode(f: Files, inode: nat, d: Bytes): Files {
    f.(data := f.data[inode := d])
  }

  function Resize(d: Bytes, n: nat): Bytes {
    if n <= |d| then d[..n] else d + seq(n - |d|, _ => 0)
  }

  function Truncate(f: Files, p: Path, n: nat): Files
    requires p in f.names
  {
    SetInode(f, f.names[p], Resize(Content(f, p), n))
  }

  function CreateEmpty(f: Files, p: Path): Files {
    Truncate(Create(f, p), p, 0)
  }

  function Rename(f: Files, from: Path, to: Path): Files
    requires from in f.names
  {
    f.(names := (f.names - {from})[to := f.names[from]])
  }

  function Remove(f: Files, p: Path): Files {
    f.(names := f.names - {p})
  }

  // ---------- sessions ----------

  /** One record of the session table; 0, "" and None are the zero values of an unset field. */
  datatype Session = Session(total: int, chunk: int, target: string, count: int, parts: set<int>, temp: Option<Path>)

  datatype UploadError = UnknownSession | TargetMismatch | TotalMismatch | ChunkMismatch | CountMismatch
                       | Incomplete | PartMissing

  function Mismatch(s: Session, path: string, total: int, chunk: int, count: int): Option<UploadError> {
    if s.target != "" && s.target != path then Some(TargetMismatch)
    else if s.total != 0 && s.total != total then Some(TotalMismatch)
    else if s.chunk != 0 && s.chunk != chunk then Some(ChunkMismatch)
    else if s.count != 0 && s.count != count then Some(CountMismatch)
    else None
  }

  /** `part` names the part file of a target and an upload id: `PartNames.PartPath` in the source. */
  datatype Store = Store(chunks: map<string, Session>, files: Files, part: (string, string) -> Path)

  /** First section of a stream: find or, on `first`, create the session; the part file to write. */
  function Enter(st: Store, spec: Spec): (Store, Result<Path, UploadError>) {
    var u := spec.upload;
    if u !in st.chunks && !spec.first then (st, Failure(UnknownSession))
    else
      var part := st.part(spec.path, u);
      var st' := if u in st.chunks then st
                 else st.(chunks := st.chunks[u :=
                                              Session(spec.total, spec.chunk, spec.path, spec.count, {}, Some(part))],
                          files := CreateEmpty(st.files, part));
      var s := st'.chunks[u];
      match Mismatch(s, spec.path, spec.total, spec.chunk, spec.count)
      case Some(err) => (st', Failure(err))
      case None => (st', Success(if s.temp.Some? then s.temp.value else part))
  }

  /** Last section of a stream: the whole chunk is on disk. */
  function Record(st: Store, spec: Spec, part: Path): (Store, Option<UploadError>) {
    var u := spec.upload;
    if u !in st.chunks then (st, Some(UnknownSession))
    else
      var s := st.chunks[u];
      var target := if s.target == "" then spec.path else s.target;
      var s' := Session(spec.total, spec.chunk, target, spec.count, s.parts + {spec.index}, Some(part));
      (st.(chunks := st.chunks[u := s']), None)
  }

  datatype CommitRequest = CommitRequest(upload: string, path: string, total: int64, chunk: int64, count: int64)

  /** The checks of a commit before it touches the file. */
  function CheckCommit(st: Store, r: CommitRequest): Result<Path, UploadError> {
    if r.upload !in st.chunks then Failure(UnknownSession)
    else
      var s := st.chunks[r.upload];
      match Mismatch(s, r.path, r.total, r.chunk, r.count)
      case Some(err) => Failure(err)
      case None =>
        if |s.parts| != r.count then Failure(Incomplete)
        else if s.temp.None? then Failure(PartMissing)
        else Success(s.temp.value)
  }

  /** What a cancel does under the session lock when it finds a session. */
  function RemoveSession(st: Store, u: string, path: string): (Store, Result<Option<Path>, UploadError>)
    requires u in st.chunks
  {
    var s := st.chunks[u];
    if path != "" && s.target != "" && path != s.target then (st, Failure(TargetMismatch))
    else (st.(chunks := st.chunks - {u}, files := if s.temp.Some? then Remove(st.files, s.temp.value) else st.files),
          Success(s.temp))
  }

  // ---------- processes ----------

  datatype StreamPc = Begun | Entered(part: Path) | Copying(part: Path, inode: nat, written: nat) | Recorded

  datatype CommitPc =
    | Asked
    | Waited
    | Checked(part: Path)
    | Statted(part: Path, size: nat)
    | Sized(part: Path)
    | Renamed

  datatype CancelPc = Announced | Quiesced | SessionMissing | Removed(part: Option<Path>)

  datatype Proc =
    | Stream(spec: Spec, spc: StreamPc)
    | Commit(req: CommitRequest, cpc: CommitPc)
    | Cancel(id: string, path: string, since: nat, xpc: CancelPc)
  {
    function Upload(): string {
      match this
      case Stream(spec, _) => spec.upload
      case Commit(req, _) => req.upload
      case Cancel(id, _, _, _) => id
    }

    /** Past its wait for idle streams, and not done with the session yet. */
    predicate InWindow() {
      || (Commit? && !cpc.Asked?)
      || (Cancel? && (xpc.Quiesced? || xpc.SessionMissing?))
    }

    predicate PastCheck() {
      Commit? && (cpc.Checked? || cpc.Statted? || cpc.Sized?)
    }

    function CommitPart(): Path
      requires PastCheck()
    {
      match cpc case Checked(part) => part case Statted(part, _) => part case Sized(part) => part
    }
  }

  datatype State = State(life: L.State, store: Store, procs: map<nat, Proc>)

  datatype Event =
    | BeginStream(p: nat, args: StreamArgs, stream: string, now: nat)
    | EnterStream(p: nat)
    | OpenPart(p: nat)
    | WritePiece(p: nat, piece: Bytes)
    | RecordChunk(p: nat)
    | EndStream(p: nat)
    | AskCommit(p: nat, request: CommitRequest)
    | AwaitCommit(p: nat)
    | CheckSession(p: nat)
    | StatPart(p: nat)
    | TruncatePart(p: nat)
    | RenamePart(p: nat)
    | FinishCommit(p: nat)
    | FailCommit(p: nat)
    | AskCancel(p: nat, id: string, path: string, now: nat, now': nat)
    | AwaitCancel(p: nat)
    | CancelSession(p: nat)
    | MissSession(p: nat)
    | UnlinkPart(p: nat)
    | FailCancel(p: nat)

  /** The commit arguments after the default chunk size is filled in. */
  function Resolved(r: CommitRequest): CommitRequest {
    r.(chunk := ChunkOrDefault(r.chunk))
  }

  predicate CommitAccepted(r: CommitRequest) {
    && r.upload != "" && r.path != "/" && r.path != "." && r.path != ""
    && CommitGeometryAccepted(r.total, r.chunk, r.count)
  }

  predicate IsStream(s: State, p: nat) { p in s.procs && s.procs[p].Stream? }

  predicate IsCommit(s: State, p: nat) { p in s.procs && s.procs[p].Commit? }

  predicate IsCancel(s: State, p: nat) { p in s.procs && s.procs[p].Cancel? }

  /** When an event can happen, with the outcome the event is named after. */
  predicate Enabled(s: State, e: Event) {
    match e
    case BeginStream(p, args, stream, now) =>
      && p !in s.procs && args.path != "" && ParseStreamSpec(args).Success?
      && L.Enabled(s.life, L.EvBegin(p, args.upload, stream, now))
    case EnterStream(p) => IsStream(s, p) && s.procs[p].spc.Begun? && Enter(s.store, s.procs[p].spec).1.Success?
    case OpenPart(p) => IsStream(s, p) && s.procs[p].spc.Entered?
    case WritePiece(p, piece) =>
      && IsStream(s, p) && s.procs[p].spc.Copying? && piece != []
      && s.procs[p].spc.inode in s.store.files.data
      && s.procs[p].spec.offset >= 0
      && s.procs[p].spc.written + |piece| <= s.procs[p].spec.expected
    case RecordChunk(p) =>
      && IsStream(s, p) && s.procs[p].spc.Copying? && s.procs[p].spc.written == s.procs[p].spec.expected
      && s.procs[p].spec.upload in s.store.chunks
    case EndStream(p) => IsStream(s, p) && p in s.life.handles
    case AskCommit(p, r) => p !in s.procs && CommitAccepted(r)
    case AwaitCommit(p) =>
      && IsCommit(s, p) && s.procs[p].cpc.Asked? && p !in s.life.waiters
      && L.Wait(s.life.core, s.procs[p].req.upload).1.None?
    case CheckSession(p) => IsCommit(s, p) && s.procs[p].cpc.Waited? && CheckCommit(s.store, s.procs[p].req).Success?
    case StatPart(p) =>
      && IsCommit(s, p) && s.procs[p].cpc.Checked? && s.procs[p].cpc.part in s.store.files.names
      && |Content(s.store.files, s.procs[p].cpc.part)| >= s.procs[p].req.total
    case TruncatePart(p) =>
      && IsCommit(s, p) && s.procs[p].cpc.Statted? && 0 <= s.procs[p].req.total
      && (s.procs[p].cpc.size > s.procs[p].req.total ==> s.procs[p].cpc.part in s.store.files.names)
    case RenamePart(p) => IsCommit(s, p) && s.procs[p].cpc.Sized? && s.procs[p].cpc.part in s.store.files.names
    case FinishCommit(p) => IsCommit(s, p) && s.procs[p].cpc.Renamed?
    case FailCommit(p) => IsCommit(s, p)
    case AskCancel(p, id, path, now, now') => p !in s.procs && L.Enabled(s.life, L.EvCancel(id, now, now'))
    case AwaitCancel(p) =>
      && IsCancel(s, p) && s.procs[p].xpc.Announced? && p !in s.life.waiters
      && L.Wait(s.life.core, s.procs[p].id).1.None?
    case CancelSession(p) =>
      && IsCancel(s, p) && s.procs[p].xpc.Quiesced? && s.procs[p].id in s.store.chunks
      && RemoveSession(s.store, s.procs[p].id, s.procs[p].path).1.Success?
    case MissSession(p) => IsCancel(s, p) && s.procs[p].xpc.Quiesced? && s.procs[p].id !in s.store.chunks
    case UnlinkPart(p) => IsCancel(s, p) && s.procs[p].xpc.SessionMissing?
    case FailCancel(p) => IsCancel(s, p) && !s.procs[p].xpc.Removed?
  }

  function Moved(s: State, p: nat, proc: Proc): State {
    s.(procs := s.procs[p := proc])
  }

  function Step(s: State, e: Event): State
    requires Enabled(s, e)
  {
    match e
    case BeginStream(p, args, stream, now) =>
      var spec := ParseStreamSpec(args).value;
      var life := L.Step(s.life, L.EvBegin(p, args.upload, stream, now));
      State(life, s.store, if p in life.handles then s.procs[p := Stream(spec, Begun)] else s.procs)
    case EnterStream(p) =>
      var (store, r) := Enter(s.store, s.procs[p].spec);
      Moved(s.(store := store), p, s.procs[p].(spc := Entered(r.value)))
    case OpenPart(p) =>
      var part := s.procs[p].spc.part;
      var files := Create(s.store.files, part);
      Moved(s.(store := s.store.(files := files)), p, s.procs[p].(spc := Copying(part, files.names[part], 0)))
    case WritePiece(p, piece) =>
      var Copying(part, inode, written) := s.procs[p].spc;
      var f := s.store.files;
      var files := SetInode(f, inode, WriteAt(f.data[inode], s.procs[p].spec.offset + written, piece));
      Moved(s.(store := s.store.(files := files)), p, s.procs[p].(spc := Copying(part, inode, written + |piece|)))
    case RecordChunk(p) =>
      Moved(s.(store := Record(s.store, s.procs[p].spec, s.procs[p].spc.part).0), p, s.procs[p].(spc := Recorded))
    case EndStream(p) =>
      s.(life := L.Step(s.life, L.EvEnd(p)), procs := s.procs - {p})
    case AskCommit(p, r) => Moved(s, p, Commit(Resolved(r), Asked))
    case AwaitCommit(p) =>
      Moved(s.(life := L.Step(s.life, L.EvWait(p, s.procs[p].req.upload))), p, s.procs[p].(cpc := Waited))
    case CheckSession(p) =>
      Moved(s, p, s.procs[p].(cpc := Checked(CheckCommit(s.store, s.procs[p].req).value)))
    case StatPart(p) =>
      var part := s.procs[p].cpc.part;
      Moved(s, p, s.procs[p].(cpc := Statted(part, |Content(s.store.files, part)|)))
    case TruncatePart(p) =>
      var Statted(part, size) := s.procs[p].cpc;
      var total := s.procs[p].req.total;
      var files := if size > total then Truncate(s.store.files, part, total) else s.store.files;
      Moved(s.(store := s.store.(files := files)), p, s.procs[p].(cpc := Sized(part)))
    case RenamePart(p) =>
      var files := Rename(s.store.files, s.procs[p].cpc.part, s.procs[p].req.path);
      Moved(s.(store := s.store.(files := files)), p, s.procs[p].(cpc := Renamed))
    case FinishCommit(p) =>
      State(s.life, s.store.(chunks := s.store.chunks - {s.procs[p].req.upload}), s.procs - {p})
    case FailCommit(p) => s.(procs := s.procs - {p})
    case AskCancel(p, id, path, now, now') =>
      Moved(s.(life := L.Step(s.life, L.EvCancel(id, now, now'))), p, Cancel(id, path, now', Announced))
    case AwaitCancel(p) =>
      Moved(s.(life := L.Step(s.life, L.EvWait(p, s.procs[p].id))), p, s.procs[p].(xpc := Quiesced))
    case CancelSession(p) =>
      var (store, r) := RemoveSession(s.store, s.procs[p].id, s.procs[p].path);
      Moved(s.(store := store), p, s.procs[p].(xpc := Removed(r.value)))
    case MissSession(p) => Moved(s, p, s.procs[p].(xpc := SessionMissing))
    case UnlinkPart(p) =>
      var Cancel(id, path, _, _) := s.procs[p];
      if path == "" then Moved(s, p, s.procs[p].(xpc := Removed(None)))
      else
        var part := s.store.part(path, id);
        Moved(s.(store := s.store.(files := Remove(s.store.files, part))), p, s.procs[p].(xpc := Removed(Some(part))))
    case FailCancel(p) => s.(procs := s.procs - {p})
  }

  function Initial(files: Files): State {
    InitialWith(files, PartPath)
  }

  function InitialWith(files: Files, part: (string, string) -> Path): State {
    State(L.Initial(), Store(map[], files, part), map[])
  }

  predicate Legal(s: State, run: seq<Event>)
    decreases |run|
  {
    run == [] || (Enabled(s, run[0]) && Legal(Step(s, run[0]), run[1..]))
  }

  function Run(s: State, run: seq<Event>): State
    requires Legal(s, run)
    decreases |run|
  {
    if run == [] then s else Run(Step(s, run[0]), run[1..])
  }
}
