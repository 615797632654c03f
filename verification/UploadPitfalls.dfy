/**
 Runs that leave a wrong file behind a successful commit.

 `UploadRefinement.CommittedFileIsSource` asks that no stream begins while a commit is between its wait and its end,
 and that no commit fails after its rename.  Each condition is needed: two runs of the protocol keep everything else,
 and a later commit of the same upload succeeds with bytes that no source has there.  The runs are made for any names
 and any upload of two bytes; `UploadCollisions` builds on their pieces.
 */
module UploadPitfalls {
  import opened Prelude
  import opened ChunkGeometry
  import opened UploadProtocol
  import opened UploadRefinement
  import opened PartNames
  import L = UploadLifecycle

  /** The condition that is dropped, if any. */
  datatype Dropped = Nothing | QuietBegins | NoLateFailures | PlainUploadIds | PlainTargets

  type Naming = (string, string) -> Path

  /** An upload, its target, and its part file. */
  datatype Job = Job(upload: string, target: string, part: Path)

  /** What a family of runs has in common. */
  datatype Setting = Setting(rule: Dropped, src: Sources, names: Naming, jobs: set<Job>)

  /** No upload and no target but those of the jobs is named. */
  predicate Names(jobs: set<Job>, e: Event) {
    match e
    case BeginStream(_, args, _, _) => exists j :: j in jobs && args.upload == j.upload
    case AskCommit(_, r) => exists j :: j in jobs && r.upload == j.upload && r.path == j.target
    case AskCancel(_, id, _, _, _) => exists j :: j in jobs && id == j.upload
    case _ => true
  }

  predicate Permitted(c: Setting, s: State, e: Event)
    requires Enabled(s, e)
  {
    && Names(c.jobs, e)
    && (Benign(c.src, s, e) || (c.rule.QuietBegins? && e.BeginStream?) || (c.rule.NoLateFailures? && e.FailCommit?))
  }

  predicate PermittedRun(c: Setting, s: State, run: seq<Event>)
    decreases |run|
  {
    run == [] || (Enabled(s, run[0]) && Permitted(c, s, run[0]) && PermittedRun(c, Step(s, run[0]), run[1..]))
  }

  lemma {:induction false} NothingDroppedIsBenign(c: Setting, s: State, run: seq<Event>)
    requires PermittedRun(c, s, run) && !c.rule.QuietBegins? && !c.rule.NoLateFailures?
    ensures BenignRun(c.src, s, run)
    decreases |run|
  {
    if run != [] {
      NothingDroppedIsBenign(c, Step(s, run[0]), run[1..]);
    }
  }

  lemma {:induction false} OnlyTheJobsAreNamed(c: Setting, s: State, run: seq<Event>)
    requires PermittedRun(c, s, run)
    ensures forall e :: e in run ==> Names(c.jobs, e)
    decreases |run|
  {
    if run != [] {
      OnlyTheJobsAreNamed(c, Step(s, run[0]), run[1..]);
      forall e | e in run ensures Names(c.jobs, e) {
        assert e == run[0] || e in run[1..];
      }
    }
  }

  /** No files, no sessions, no processes. */
  function Start(names: Naming): State {
    InitialWith(Files(map[], map[], 0), names)
  }

  ghost predicate Reach(c: Setting, s: State) {
    exists run :: Leads(c, Start(c.names), run, s)
  }

  ghost predicate Leads(c: Setting, s: State, run: seq<Event>, s': State) {
    PermittedRun(c, s, run) && Legal(s, run) && Run(s, run) == s'
  }

  lemma {:induction false} LeadsOn(c: Setting, s: State, run: seq<Event>, e: Event)
    requires PermittedRun(c, s, run) && Legal(s, run)
    requires Enabled(Run(s, run), e) && Permitted(c, Run(s, run), e)
    ensures Leads(c, s, run + [e], Step(Run(s, run), e))
    decreases |run|
  {
    var all := run + [e];
    if run == [] {
      assert all[1..] == [];
    } else {
      LeadsOn(c, Step(s, run[0]), run[1..], e);
      assert all[1..] == run[1..] + [e];
    }
  }

  lemma Go(c: Setting, s: State, e: Event, s': State)
    requires Reach(c, s) && Enabled(s, e) && Permitted(c, s, e) && s' == Step(s, e)
    ensures Reach(c, s')
  {
    var run :| Leads(c, Start(c.names), run, s);
    LeadsOn(c, Start(c.names), run, e);
  }

  // ---------- uploads of two bytes ----------

  /** The job is one of the setting's, is allowed at the door, and its source is two bytes. */
  predicate JobOk(c: Setting, j: Job) {
    && j in c.jobs && j.upload != "" && j.target != "" && j.target != "/" && j.target != "."
    && j.part == c.names(j.target, j.upload) && |SourceOf(c.src, j.upload)| == 2
  }

  /** Chunk `index` of two bytes in chunks of `chunk`. */
  datatype Slice = Slice(chunk: int64, index: int64, first: bool)

  predicate GoodSlice(k: Slice) {
    (k.chunk == 2 && k.index == 0) || (k.chunk == 1 && 0 <= k.index <= 1)
  }

  const WHOLE := Slice(2, 0, true)

  function Count(chunk: int64): int64 {
    if chunk == 2 then 1 else 2
  }

  function AllParts(chunk: int64): set<int> {
    if chunk == 2 then {0} else {0, 1}
  }

  function Args(j: Job, k: Slice): StreamArgs {
    StreamArgs(j.target, j.upload, k.index, k.index, Count(k.chunk), 2, k.chunk, k.first)
  }

  function SpecOf(j: Job, k: Slice): Spec {
    Spec(j.target, j.upload, k.index, k.index, Count(k.chunk), 2, k.chunk, k.chunk, k.first)
  }

  function Request(j: Job, chunk: int64): CommitRequest {
    CommitRequest(j.upload, j.target, 2, chunk, Count(chunk))
  }

  function Sess(j: Job, chunk: int64, parts: set<int>): Session {
    Session(2, chunk, j.target, Count(chunk), parts, Some(j.part))
  }

  lemma ArgsParse(c: Setting, j: Job, k: Slice)
    requires JobOk(c, j) && GoodSlice(k)
    ensures ParseStreamSpec(Args(j, k)) == Success(SpecOf(j, k))
  {
  }

  lemma RequestIsAccepted(c: Setting, j: Job, chunk: int64)
    requires JobOk(c, j) && (chunk == 1 || chunk == 2)
    ensures CommitAccepted(Request(j, chunk)) && Resolved(Request(j, chunk)) == Request(j, chunk)
  {
  }

  // ---------- life with no stream, with one, with two ----------

  function Idle(closed: set<nat>, n: nat): L.State {
    L.State(L.Core(map[], closed, n), map[], map[], 1)
  }

  function Busy(u: string, closed: set<nat>, n: nat, p: nat): L.State {
    L.State(L.Core(map[u := L.Entry(1, n, false, 0, map[])], closed, n + 1), map[p := L.Handle(u, "")], map[], 1)
  }

  function Two(u: string, closed: set<nat>, n: nat, p: nat, q: nat): L.State {
    L.State(L.Core(map[u := L.Entry(2, n, false, 0, map[])], closed, n + 1),
            map[p := L.Handle(u, ""), q := L.Handle(u, "")], map[], 1)
  }

  /** An idle life on a clock of at most 1. */
  predicate IsIdle(life: L.State, closed: set<nat>, n: nat) {
    life == Idle(closed, n) || life == Idle(closed, n).(clock := 0)
  }

  lemma LifeBegins(life: L.State, u: string, closed: set<nat>, n: nat, p: nat)
    requires u != "" && IsIdle(life, closed, n)
    ensures var e := L.EvBegin(p, u, "", 1);
      L.Enabled(life, e) && L.Step(life, e) == Busy(u, closed + {n}, n + 1, p)
  {
    var core := L.Core(map[], closed, n);
    assert L.Pruned(core, 1).table == map[];
    var c1 := L.Ensured(L.Pruned(core, 1), u);
    assert c1.table == map[u := L.Entry(0, n, false, 0, map[])];
    assert L.Activated(c1, u, "", p).table == map[u := L.Entry(1, n + 1, false, 0, map[])];
  }

  lemma LifeEnds(u: string, closed: set<nat>, n: nat, p: nat)
    ensures L.Step(Busy(u, closed, n, p), L.EvEnd(p)) == Idle(closed + {n}, n + 1)
  {
    var s := Busy(u, closed, n, p);
    assert s.core.table - {u} == map[];
    assert s.handles - {p} == map[];
  }

  lemma LifeJoins(u: string, closed: set<nat>, n: nat, p: nat, q: nat)
    requires u != "" && p != q
    ensures var e := L.EvBegin(q, u, "", 1);
      L.Enabled(Busy(u, closed, n, p), e) && L.Step(Busy(u, closed, n, p), e) == Two(u, closed, n, p, q)
  {
    var core := Busy(u, closed, n, p).core;
    assert L.Pruned(core, 1).table == core.table;
    assert L.Activated(core, u, "", q).table == map[u := L.Entry(2, n, false, 0, map[])];
  }

  lemma LifeParts(u: string, closed: set<nat>, n: nat, p: nat, q: nat)
    requires p != q
    ensures L.Step(Two(u, closed, n, p, q), L.EvEnd(q)) == Busy(u, closed, n, p)
  {
    var s := Two(u, closed, n, p, q);
    assert s.handles - {q} == map[p := L.Handle(u, "")];
    assert L.End(s.core, u, "").table == map[u := L.Entry(1, n, false, 0, map[])];
  }

  // ---------- a whole stream ----------

  lemma SamePlace(p: nat, before: Proc, after: Proc)
    ensures map[p := before][p := after] == map[p := after]
  {
  }

  lemma EnterGoes(c: Setting, s: State, p: nat, spec: Spec, store: Store, part: Path)
    requires Reach(c, s) && p in s.procs && s.procs[p] == Stream(spec, Begun)
    requires Enter(s.store, spec) == (store, Success(part))
    ensures Reach(c, State(s.life, store, s.procs[p := Stream(spec, Entered(part))]))
  {
    Go(c, s, EnterStream(p), State(s.life, store, s.procs[p := Stream(spec, Entered(part))]));
  }

  lemma OpenGoes(c: Setting, s: State, p: nat, spec: Spec, f: Files, part: Path)
    requires Reach(c, s) && p in s.procs && s.procs[p] == Stream(spec, Entered(part))
    requires f == Create(s.store.files, part)
    ensures Reach(c, State(s.life, s.store.(files := f), s.procs[p := Stream(spec, Copying(part, f.names[part], 0))]))
  {
    Go(c, s, OpenPart(p),
       State(s.life, s.store.(files := f), s.procs[p := Stream(spec, Copying(part, f.names[part], 0))]));
  }

  /** The piece is what the source has at the stream's place. */
  predicate GoodPiece(c: Setting, spec: Spec, written: nat, piece: Bytes) {
    && spec.offset >= 0 && piece != [] && written + |piece| <= spec.expected
    && var b, at := SourceOf(c.src, spec.upload), spec.offset + written;
    && at + |piece| <= |b| && piece == b[at..at + |piece|]
  }

  lemma WriteStep(c: Setting, s: State, p: nat, spec: Spec, pc: StreamPc, piece: Bytes, f: Files)
    requires p in s.procs && s.procs[p] == Stream(spec, pc) && pc.Copying? && GoodPiece(c, spec, pc.written, piece)
    requires pc.inode in s.store.files.data
    requires f == SetInode(s.store.files, pc.inode,
                           WriteAt(s.store.files.data[pc.inode], spec.offset + pc.written, piece))
    ensures Enabled(s, WritePiece(p, piece)) && Benign(c.src, s, WritePiece(p, piece))
    ensures Step(s, WritePiece(p, piece))
         == State(s.life, s.store.(files := f), s.procs[p := Stream(spec, pc.(written := pc.written + |piece|))])
  {
  }

  lemma WriteGoes(c: Setting, s: State, p: nat, spec: Spec, pc: StreamPc, piece: Bytes, f: Files)
    requires Reach(c, s) && p in s.procs && s.procs[p] == Stream(spec, pc)
    requires pc.Copying? && GoodPiece(c, spec, pc.written, piece) && pc.inode in s.store.files.data
    requires f == SetInode(s.store.files, pc.inode,
                           WriteAt(s.store.files.data[pc.inode], spec.offset + pc.written, piece))
    ensures Reach(c, State(s.life, s.store.(files := f),
                           s.procs[p := Stream(spec, pc.(written := pc.written + |piece|))]))
  {
    WriteStep(c, s, p, spec, pc, piece, f);
    Go(c, s, WritePiece(p, piece),
       State(s.life, s.store.(files := f), s.procs[p := Stream(spec, pc.(written := pc.written + |piece|))]));
  }

  lemma RecordStep(c: Setting, s: State, p: nat, spec: Spec, pc: StreamPc, store: Store)
    requires p in s.procs && s.procs[p] == Stream(spec, pc) && pc.Copying? && pc.written == spec.expected
    requires spec.upload in s.store.chunks && store == Record(s.store, spec, pc.part).0
    ensures Enabled(s, RecordChunk(p)) && Benign(c.src, s, RecordChunk(p))
    ensures Step(s, RecordChunk(p)) == State(s.life, store, s.procs[p := Stream(spec, Recorded)])
  {
  }

  lemma RecordGoes(c: Setting, s: State, p: nat, spec: Spec, pc: StreamPc, store: Store)
    requires Reach(c, s) && p in s.procs && s.procs[p] == Stream(spec, pc)
    requires pc.Copying? && pc.written == spec.expected
    requires spec.upload in s.store.chunks && store == Record(s.store, spec, pc.part).0
    ensures Reach(c, State(s.life, store, s.procs[p := Stream(spec, Recorded)]))
  {
    RecordStep(c, s, p, spec, pc, store);
    Go(c, s, RecordChunk(p), State(s.life, store, s.procs[p := Stream(spec, Recorded)]));
  }

  function Piece(c: Setting, j: Job, k: Slice): Bytes
    requires JobOk(c, j) && GoodSlice(k)
  {
    SourceOf(c.src, j.upload)[k.index..k.index + k.chunk]
  }

  /** The part file after a slice is written to it. */
  function Filled(c: Setting, j: Job, k: Slice, files: Files): Files
    requires JobOk(c, j) && GoodSlice(k)
  {
    var f := Create(files, j.part);
    SetInode(f, f.names[j.part], WriteAt(Content(f, j.part), k.index, Piece(c, j, k)))
  }

  /** The store after a whole stream. */
  function Uploaded(c: Setting, j: Job, k: Slice, store: Store): Store
    requires JobOk(c, j) && GoodSlice(k)
  {
    var entered := Enter(store, SpecOf(j, k)).0;
    Record(entered.(files := Filled(c, j, k, entered.files)), SpecOf(j, k), j.part).0
  }

  /** A stream can enter, and finds or makes its part file. */
  predicate CanEnter(j: Job, k: Slice, store: Store) {
    && Enter(store, SpecOf(j, k)).1 == Success(j.part) && j.upload in Enter(store, SpecOf(j, k)).0.chunks
    && HasInode(j, Enter(store, SpecOf(j, k)).0.files)
  }

  predicate HasInode(j: Job, files: Files) {
    var f := Create(files, j.part);
    f.names[j.part] in f.data
  }

  lemma StreamGoes(c: Setting, j: Job, k: Slice, life: L.State, store: Store, p: nat)
    requires JobOk(c, j) && GoodSlice(k) && CanEnter(j, k, store)
    requires Reach(c, State(life, store, map[p := Stream(SpecOf(j, k), Begun)]))
    ensures Reach(c, State(life, Uploaded(c, j, k, store), map[p := Stream(SpecOf(j, k), Recorded)]))
  {
    var spec := SpecOf(j, k);
    var entered := Enter(store, spec).0;
    EnterGoes(c, State(life, store, map[p := Stream(spec, Begun)]), p, spec, entered, j.part);
    SamePlace(p, Stream(spec, Begun), Stream(spec, Entered(j.part)));
    EnteredGoes(c, j, k, life, entered, p);
  }

  lemma EnteredGoes(c: Setting, j: Job, k: Slice, life: L.State, store: Store, p: nat)
    requires JobOk(c, j) && GoodSlice(k) && j.upload in store.chunks && HasInode(j, store.files)
    requires Reach(c, State(life, store, map[p := Stream(SpecOf(j, k), Entered(j.part))]))
    ensures Reach(c, State(life, Record(store.(files := Filled(c, j, k, store.files)), SpecOf(j, k), j.part).0,
                           map[p := Stream(SpecOf(j, k), Recorded)]))
  {
    var spec := SpecOf(j, k);
    var f := Create(store.files, j.part);
    var entered, copying := Stream(spec, Entered(j.part)), Stream(spec, Copying(j.part, f.names[j.part], 0));
    SamePlace(p, entered, copying);
    OpenGoes(c, State(life, store, map[p := entered]), p, spec, f, j.part);
    CopyGoes(c, j, k, life, store.(files := f), p, Filled(c, j, k, store.files));
  }

  lemma CopyGoes(c: Setting, j: Job, k: Slice, life: L.State, store: Store, p: nat, f: Files)
    requires JobOk(c, j) && GoodSlice(k) && j.upload in store.chunks
    requires j.part in store.files.names && store.files.names[j.part] in store.files.data
    requires Reach(c, State(life, store, map[p := Stream(SpecOf(j, k), Copying(j.part, store.files.names[j.part], 0))]))
    requires f == SetInode(store.files, store.files.names[j.part],
                           WriteAt(Content(store.files, j.part), k.index, Piece(c, j, k)))
    ensures Reach(c, State(life, Record(store.(files := f), SpecOf(j, k), j.part).0,
                           map[p := Stream(SpecOf(j, k), Recorded)]))
  {
    var spec, pc := SpecOf(j, k), Copying(j.part, store.files.names[j.part], k.chunk);
    PieceGoes(c, j, k, life, store, p, f);
    SamePlace(p, Stream(spec, pc), Stream(spec, Recorded));
    RecordGoes(c, State(life, store.(files := f), map[p := Stream(spec, pc)]), p, spec, pc,
               Record(store.(files := f), spec, j.part).0);
  }

  lemma PieceGoes(c: Setting, j: Job, k: Slice, life: L.State, store: Store, p: nat, f: Files)
    requires JobOk(c, j) && GoodSlice(k)
    requires j.part in store.files.names && store.files.names[j.part] in store.files.data
    requires Reach(c, State(life, store, map[p := Stream(SpecOf(j, k), Copying(j.part, store.files.names[j.part], 0))]))
    requires f == SetInode(store.files, store.files.names[j.part],
                           WriteAt(Content(store.files, j.part), k.index, Piece(c, j, k)))
    ensures Reach(c, State(life, store.(files := f),
                           map[p := Stream(SpecOf(j, k), Copying(j.part, store.files.names[j.part], k.chunk))]))
  {
    var spec, pc := SpecOf(j, k), Copying(j.part, store.files.names[j.part], 0);
    SamePlace(p, Stream(spec, pc), Stream(spec, pc.(written := k.chunk)));
    PieceIsGood(c, j, k);
    assert spec.offset + pc.written == k.index;
    WriteGoes(c, State(life, store, map[p := Stream(spec, pc)]), p, spec, pc, Piece(c, j, k), f);
  }

  lemma PieceIsGood(c: Setting, j: Job, k: Slice)
    requires JobOk(c, j) && GoodSlice(k)
    ensures |Piece(c, j, k)| == k.chunk && GoodPiece(c, SpecOf(j, k), 0, Piece(c, j, k))
  {
  }

  lemma SoloBegins(c: Setting, j: Job, k: Slice, life: L.State, closed: set<nat>, n: nat, store: Store, p: nat)
    requires JobOk(c, j) && GoodSlice(k) && IsIdle(life, closed, n) && Reach(c, State(life, store, map[]))
    ensures Reach(c, State(Busy(j.upload, closed + {n}, n + 1, p), store, map[p := Stream(SpecOf(j, k), Begun)]))
  {
    ArgsParse(c, j, k);
    LifeBegins(life, j.upload, closed, n, p);
    Go(c, State(life, store, map[]), BeginStream(p, Args(j, k), "", 1),
       State(Busy(j.upload, closed + {n}, n + 1, p), store, map[p := Stream(SpecOf(j, k), Begun)]));
  }

  lemma SoloEnds(c: Setting, j: Job, k: Slice, closed: set<nat>, n: nat, store: Store, p: nat)
    requires Reach(c, State(Busy(j.upload, closed, n, p), store, map[p := Stream(SpecOf(j, k), Recorded)]))
    ensures Reach(c, State(Idle(closed + {n}, n + 1), store, map[]))
  {
    var s := State(Busy(j.upload, closed, n, p), store, map[p := Stream(SpecOf(j, k), Recorded)]);
    LifeEnds(j.upload, closed, n, p);
    assert s.procs - {p} == map[];
    Go(c, s, EndStream(p), State(Idle(closed + {n}, n + 1), store, map[]));
  }

  /** A stream that runs alone. */
  lemma SoloStream(c: Setting, j: Job, k: Slice, life: L.State, closed: set<nat>, n: nat, store: Store, p: nat)
    requires JobOk(c, j) && GoodSlice(k) && CanEnter(j, k, store)
    requires IsIdle(life, closed, n) && Reach(c, State(life, store, map[]))
    ensures Reach(c, State(Idle(closed + {n} + {n + 1}, n + 2), Uploaded(c, j, k, store), map[]))
  {
    SoloBegins(c, j, k, life, closed, n, store, p);
    StreamGoes(c, j, k, Busy(j.upload, closed + {n}, n + 1, p), store, p);
    SoloEnds(c, j, k, closed + {n}, n + 1, Uploaded(c, j, k, store), p);
  }

  // ---------- a whole commit ----------

  lemma AskGoes(c: Setting, j: Job, s: State, p: nat, chunk: int64)
    requires JobOk(c, j) && (chunk == 1 || chunk == 2) && Reach(c, s) && s.procs == map[]
    requires s.life.core.table == map[] && s.life.waiters == map[]
    ensures Reach(c, s.(procs := map[p := Commit(Request(j, chunk), Waited)]))
  {
    RequestIsAccepted(c, j, chunk);
    var r := Request(j, chunk);
    Go(c, s, AskCommit(p, r), s.(procs := map[p := Commit(r, Asked)]));
    SamePlace(p, Commit(r, Asked), Commit(r, Waited));
    Go(c, s.(procs := map[p := Commit(r, Asked)]), AwaitCommit(p), s.(procs := map[p := Commit(r, Waited)]));
  }

  lemma CheckGoes(c: Setting, j: Job, s: State, p: nat, chunk: int64)
    requires (chunk == 1 || chunk == 2) && Reach(c, s) && s.procs == map[p := Commit(Request(j, chunk), Waited)]
    requires j.upload in s.store.chunks && s.store.chunks[j.upload] == Sess(j, chunk, AllParts(chunk))
    ensures Reach(c, s.(procs := map[p := Commit(Request(j, chunk), Checked(j.part))]))
  {
    assert |{0, 1}| == 2 && |{0}| == 1;
    var r := Request(j, chunk);
    SamePlace(p, Commit(r, Waited), Commit(r, Checked(j.part)));
    Go(c, s, CheckSession(p), s.(procs := map[p := Commit(r, Checked(j.part))]));
  }

  lemma StatGoes(c: Setting, j: Job, s: State, p: nat, chunk: int64)
    requires Reach(c, s) && s.procs == map[p := Commit(Request(j, chunk), Checked(j.part))]
    requires j.part in s.store.files.names && |Content(s.store.files, j.part)| == 2
    ensures Reach(c, s.(procs := map[p := Commit(Request(j, chunk), Statted(j.part, 2))]))
  {
    var r := Request(j, chunk);
    SamePlace(p, Commit(r, Checked(j.part)), Commit(r, Statted(j.part, 2)));
    Go(c, s, StatPart(p), s.(procs := map[p := Commit(r, Statted(j.part, 2))]));
  }

  lemma SizeGoes(c: Setting, j: Job, s: State, p: nat, chunk: int64)
    requires Reach(c, s) && s.procs == map[p := Commit(Request(j, chunk), Statted(j.part, 2))]
    ensures Reach(c, s.(procs := map[p := Commit(Request(j, chunk), Sized(j.part))]))
  {
    var r := Request(j, chunk);
    SamePlace(p, Commit(r, Statted(j.part, 2)), Commit(r, Sized(j.part)));
    Go(c, s, TruncatePart(p), s.(procs := map[p := Commit(r, Sized(j.part))]));
  }

  /** The session is complete, and the part file has the right size. */
  predicate Ready(j: Job, chunk: int64, store: Store) {
    && j.upload in store.chunks && store.chunks[j.upload] == Sess(j, chunk, AllParts(chunk))
    && j.part in store.files.names && |Content(store.files, j.part)| == 2
  }

  /** A commit that runs alone, up to its rename. */
  lemma SoloCommit(c: Setting, j: Job, closed: set<nat>, n: nat, store: Store, p: nat, chunk: int64)
    requires JobOk(c, j) && (chunk == 1 || chunk == 2) && Ready(j, chunk, store)
    requires Reach(c, State(Idle(closed, n), store, map[]))
    ensures Reach(c, State(Idle(closed, n), store, map[p := Commit(Request(j, chunk), Sized(j.part))]))
  {
    var life, r := Idle(closed, n), Request(j, chunk);
    AskGoes(c, j, State(life, store, map[]), p, chunk);
    CheckGoes(c, j, State(life, store, map[p := Commit(r, Waited)]), p, chunk);
    StatGoes(c, j, State(life, store, map[p := Commit(r, Checked(j.part))]), p, chunk);
    SizeGoes(c, j, State(life, store, map[p := Commit(r, Statted(j.part, 2))]), p, chunk);
  }

  lemma RenameGoes(c: Setting, j: Job, life: L.State, store: Store, f: Files, p: nat, chunk: int64)
    requires Reach(c, State(life, store, map[p := Commit(Request(j, chunk), Sized(j.part))]))
    requires j.part in store.files.names && f == Rename(store.files, j.part, j.target)
    ensures Reach(c, State(life, store.(files := f), map[p := Commit(Request(j, chunk), Renamed)]))
  {
    var r := Request(j, chunk);
    SamePlace(p, Commit(r, Sized(j.part)), Commit(r, Renamed));
    Go(c, State(life, store, map[p := Commit(r, Sized(j.part))]), RenamePart(p),
       State(life, store.(files := f), map[p := Commit(r, Renamed)]));
  }

  /** A commit that runs alone, with its rename. */
  lemma SoloRename(c: Setting, j: Job, closed: set<nat>, n: nat, store: Store, f: Files, p: nat, chunk: int64)
    requires JobOk(c, j) && (chunk == 1 || chunk == 2) && Ready(j, chunk, store)
    requires f == Rename(store.files, j.part, j.target)
    requires Reach(c, State(Idle(closed, n), store, map[]))
    ensures Reach(c, State(Idle(closed, n), store.(files := f), map[p := Commit(Request(j, chunk), Renamed)]))
  {
    SoloCommit(c, j, closed, n, store, p, chunk);
    RenameGoes(c, j, Idle(closed, n), store, f, p, chunk);
  }

  /**
   A commit is about to rename its part file to its target, after checks that all succeeded, and the file is not the
   source.
   */
  ghost predicate CommitsWrong(src: Sources, s: State, p: nat) {
    && Enabled(s, RenamePart(p))
    && var r := s.procs[p].req;
    && r.upload in src && r.total == |src[r.upload]|
    && !Holds(Step(s, RenamePart(p)).store.files, r.path, src[r.upload], r.total)
  }

  /** Some permitted run from an empty file system ends right before a wrong rename. */
  ghost predicate Spoils(c: Setting) {
    exists run, p ::
      && PermittedRun(c, Start(c.names), run) && Legal(Start(c.names), run)
      && CommitsWrong(c.src, Run(Start(c.names), run), p)
  }

  lemma RunTo(c: Setting, s: State, p: nat)
    requires Reach(c, s) && CommitsWrong(c.src, s, p)
    ensures Spoils(c)
  {
    var run :| Leads(c, Start(c.names), run, s);
  }

  lemma WrongBytes(c: Setting, j: Job, life: L.State, store: Store, p: nat, chunk: int64)
    requires JobOk(c, j) && j.upload in c.src && j.part in store.files.names && j.part != j.target
    requires Content(store.files, j.part) != c.src[j.upload]
    ensures CommitsWrong(c.src, State(life, store, map[p := Commit(Request(j, chunk), Sized(j.part))]), p)
  {
    var f := Rename(store.files, j.part, j.target);
    assert Content(f, j.target) == Content(store.files, j.part);
    var b := c.src[j.upload];
    assert b[..2] == b;
  }

  // ---------- the start of an upload ----------

  /** One file, in inode 0. */
  function OneFile(p: Path, d: Bytes): Files {
    Files(map[p := 0], map[0 := d], 1)
  }

  /** One session. */
  function OneSession(c: Setting, j: Job, sess: Session, files: Files): Store {
    Store(map[j.upload := sess], files, c.names)
  }

  function First(chunk: int64): Slice {
    Slice(chunk, 0, true)
  }

  lemma StartReached(c: Setting)
    ensures Reach(c, Start(c.names))
  {
    assert Leads(c, Start(c.names), [], Start(c.names));
  }

  lemma FirstEnter(c: Setting, j: Job, chunk: int64)
    requires JobOk(c, j) && (chunk == 1 || chunk == 2)
    ensures Enter(Start(c.names).store, SpecOf(j, First(chunk)))
         == (OneSession(c, j, Sess(j, chunk, {}), OneFile(j.part, [])), Success(j.part))
  {
    var f := Create(Start(c.names).store.files, j.part);
    assert f == OneFile(j.part, []);
    assert Resize([], 0) == [];
    assert Truncate(f, j.part, 0) == f;
  }

  lemma FirstUploaded(c: Setting, j: Job, chunk: int64)
    requires JobOk(c, j) && (chunk == 1 || chunk == 2)
    ensures var d := Piece(c, j, First(chunk));
      Uploaded(c, j, First(chunk), Start(c.names).store) == OneSession(c, j, Sess(j, chunk, {0}), OneFile(j.part, d))
  {
    FirstEnter(c, j, chunk);
    var d := Piece(c, j, First(chunk));
    assert WriteAt([], 0, d) == d;
    assert Filled(c, j, First(chunk), OneFile(j.part, [])) == OneFile(j.part, d);
    assert {} + {0} == {0};
    var store := OneSession(c, j, Sess(j, chunk, {}), OneFile(j.part, d));
    assert store.chunks[j.upload := Sess(j, chunk, {0})] == map[j.upload := Sess(j, chunk, {0})];
  }

  lemma FirstStream(c: Setting, j: Job, chunk: int64)
    requires JobOk(c, j) && (chunk == 1 || chunk == 2)
    ensures Reach(c, State(Idle({0, 1}, 2),
                           OneSession(c, j, Sess(j, chunk, {0}), OneFile(j.part, Piece(c, j, First(chunk)))),
                           map[]))
  {
    StartReached(c);
    FirstEnter(c, j, chunk);
    FirstUploaded(c, j, chunk);
    SoloStream(c, j, First(chunk), Start(c.names).life, {}, 0, Start(c.names).store, 1);
    assert {} + {0} + {0 + 1} == {0, 1};
  }

  lemma WholePiece(c: Setting, j: Job)
    requires JobOk(c, j)
    ensures Piece(c, j, First(2)) == SourceOf(c.src, j.upload)
  {
  }

  lemma RenamedOne(j: Job, d: Bytes)
    requires j.part != j.target
    ensures Rename(OneFile(j.part, d), j.part, j.target) == OneFile(j.target, d)
  {
    assert map[j.part := 0] - {j.part} == map[];
  }

  /** One upload in one chunk, and its commit up to the rename. */
  lemma FirstRename(c: Setting, j: Job)
    requires JobOk(c, j) && j.part != j.target
    ensures Reach(c, State(Idle({0, 1}, 2),
                           OneSession(c, j, Sess(j, 2, {0}), OneFile(j.target, SourceOf(c.src, j.upload))),
                           map[2 := Commit(Request(j, 2), Renamed)]))
  {
    FirstStream(c, j, 2);
    WholePiece(c, j);
    RenamedOne(j, SourceOf(c.src, j.upload));
    SoloRename(c, j, {0, 1}, 2, OneSession(c, j, Sess(j, 2, {0}), OneFile(j.part, SourceOf(c.src, j.upload))),
               OneFile(j.target, SourceOf(c.src, j.upload)), 2, 2);
  }

  /** Runs do commit: an upload of two bytes in one chunk gets as far as its rename. */
  lemma SoloUploadCommits(c: Setting, j: Job)
    requires JobOk(c, j)
    ensures exists run, p ::
      PermittedRun(c, Start(c.names), run) && Legal(Start(c.names), run)
          && Enabled(Run(Start(c.names), run), RenamePart(p))
  {
    FirstStream(c, j, 2);
    WholePiece(c, j);
    var store := OneSession(c, j, Sess(j, 2, {0}), OneFile(j.part, SourceOf(c.src, j.upload)));
    SoloCommit(c, j, {0, 1}, 2, store, 2, 2);
    var s := State(Idle({0, 1}, 2), store, map[2 := Commit(Request(j, 2), Sized(j.part))]);
    var run :| Leads(c, Start(c.names), run, s);
    assert Enabled(Run(Start(c.names), run), RenamePart(2));
  }

  // ---------- a stream that begins too early ----------

  function Late(j: Job, pc: StreamPc): Proc {
    Stream(SpecOf(j, Slice(2, 0, false)), pc)
  }

  function Fresh(j: Job, pc: StreamPc): Proc {
    Stream(SpecOf(j, WHOLE), pc)
  }

  function Done(j: Job): Proc {
    Commit(Request(j, 2), Renamed)
  }

  /** The committed file and the new part file that a late stream opened. */
  function BothFiles(c: Setting, j: Job, d: Bytes): Files {
    Files(map[j.target := 0, j.part := 1], map[0 := SourceOf(c.src, j.upload), 1 := d], 2)
  }

  function LateStore(c: Setting, j: Job, d: Bytes): Store {
    OneSession(c, j, Sess(j, 2, {0}), BothFiles(c, j, d))
  }

  /** The setting of the run: only the condition on when streams begin is dropped. */
  predicate Spoilable(c: Setting, j: Job, rule: Dropped) {
    && c.rule == rule && JobOk(c, j) && j.part != j.target && j.upload in c.src && c.src[j.upload][0] != 0
  }

  /** A stream begins before the session of the commit is deleted. */
  lemma LateBegins(c: Setting, j: Job)
    requires Spoilable(c, j, QuietBegins)
    ensures Reach(c, State(Busy(j.upload, {0, 1, 2}, 3, 3),
                           OneSession(c, j, Sess(j, 2, {0}), OneFile(j.target, c.src[j.upload])),
                           map[2 := Done(j), 3 := Late(j, Begun)]))
  {
    FirstRename(c, j);
    var k := Slice(2, 0, false);
    ArgsParse(c, j, k);
    LifeBegins(Idle({0, 1}, 2), j.upload, {0, 1}, 2, 3);
    assert {0, 1} + {2} == {0, 1, 2};
    var store := OneSession(c, j, Sess(j, 2, {0}), OneFile(j.target, c.src[j.upload]));
    var s := State(Idle({0, 1}, 2), store, map[2 := Done(j)]);
    assert s.procs[3 := Late(j, Begun)] == map[2 := Done(j), 3 := Late(j, Begun)];
    Go(c, s, BeginStream(3, Args(j, k), "", 1),
       State(Busy(j.upload, {0, 1, 2}, 3, 3), store, map[2 := Done(j), 3 := Late(j, Begun)]));
  }

  lemma Second(done: Proc, before: Proc, after: Proc)
    ensures map[2 := done, 3 := before][3 := after] == map[2 := done, 3 := after]
  {
  }

  lemma LateOpens(c: Setting, j: Job)
    requires Spoilable(c, j, QuietBegins)
    ensures Reach(c, State(Busy(j.upload, {0, 1, 2}, 3, 3), LateStore(c, j, []),
                           map[2 := Done(j), 3 := Late(j, Copying(j.part, 1, 0))]))
  {
    LateBegins(c, j);
    var spec, life := SpecOf(j, Slice(2, 0, false)), Busy(j.upload, {0, 1, 2}, 3, 3);
    var store := OneSession(c, j, Sess(j, 2, {0}), OneFile(j.target, c.src[j.upload]));
    Second(Done(j), Late(j, Begun), Late(j, Entered(j.part)));
    EnterGoes(c, State(life, store, map[2 := Done(j), 3 := Late(j, Begun)]), 3, spec, store, j.part);
    SecondFile(c, j);
    Second(Done(j), Late(j, Entered(j.part)), Late(j, Copying(j.part, 1, 0)));
    OpenGoes(c, State(life, store, map[2 := Done(j), 3 := Late(j, Entered(j.part))]), 3, spec, BothFiles(c, j, []),
             j.part);
  }

  lemma SecondFile(c: Setting, j: Job)
    requires j.part != j.target && j.upload in c.src
    ensures Create(OneFile(j.target, c.src[j.upload]), j.part) == BothFiles(c, j, [])
  {
  }

  lemma SetLate(c: Setting, j: Job, d: Bytes, d': Bytes)
    requires j.part != j.target
    ensures SetInode(BothFiles(c, j, d), 1, d') == BothFiles(c, j, d')
  {
  }

  /** What two writes at the places of the two bytes make of an empty file. */
  lemma LateBytes(b: Bytes)
    requires |b| == 2
    ensures WriteAt([], 0, [b[0]]) == [b[0]] && WriteAt([], 1, [b[1]]) == [0, b[1]]
    ensures b[0..1] == [b[0]] && b[1..2] == [b[1]]
  {
  }

  lemma LateWritesFirst(c: Setting, j: Job)
    requires Spoilable(c, j, QuietBegins)
    ensures var b := c.src[j.upload];
      Reach(c, State(Busy(j.upload, {0, 1, 2}, 3, 3), LateStore(c, j, [b[0]]),
                     map[2 := Done(j), 3 := Late(j, Copying(j.part, 1, 1))]))
  {
    var b := c.src[j.upload];
    LateOpens(c, j);
    LateBytes(b);
    SetLate(c, j, [], [b[0]]);
    Second(Done(j), Late(j, Copying(j.part, 1, 0)), Late(j, Copying(j.part, 1, 1)));
    WriteGoes(c, State(Busy(j.upload, {0, 1, 2}, 3, 3), LateStore(c, j, []),
                       map[2 := Done(j), 3 := Late(j, Copying(j.part, 1, 0))]),
              3, SpecOf(j, Slice(2, 0, false)), Copying(j.part, 1, 0), [b[0]], BothFiles(c, j, [b[0]]));
  }

  lemma CommitEnds(c: Setting, j: Job)
    requires Spoilable(c, j, QuietBegins)
    ensures Reach(c, State(Busy(j.upload, {0, 1, 2}, 3, 3),
                           Store(map[], BothFiles(c, j, [c.src[j.upload][0]]), c.names),
                           map[3 := Late(j, Copying(j.part, 1, 1))]))
  {
    LateWritesFirst(c, j);
    var s := State(Busy(j.upload, {0, 1, 2}, 3, 3), LateStore(c, j, [c.src[j.upload][0]]),
                   map[2 := Done(j), 3 := Late(j, Copying(j.part, 1, 1))]);
    assert s.procs - {2} == map[3 := Late(j, Copying(j.part, 1, 1))];
    assert s.store.chunks - {j.upload} == map[];
    Go(c, s, FinishCommit(2),
       State(s.life, Store(map[], s.store.files, c.names), map[3 := Late(j, Copying(j.part, 1, 1))]));
  }

  /** The next upload of the same id starts, and its connection is lost at once; session and empty part file stay. */
  lemma FreshBegins(c: Setting, j: Job)
    requires Spoilable(c, j, QuietBegins)
    ensures Reach(c, State(Two(j.upload, {0, 1, 2}, 3, 3, 4),
                           Store(map[], BothFiles(c, j, [c.src[j.upload][0]]), c.names),
                           map[3 := Late(j, Copying(j.part, 1, 1)), 4 := Fresh(j, Begun)]))
  {
    CommitEnds(c, j);
    ArgsParse(c, j, WHOLE);
    LifeJoins(j.upload, {0, 1, 2}, 3, 3, 4);
    var late := Late(j, Copying(j.part, 1, 1));
    var s := State(Busy(j.upload, {0, 1, 2}, 3, 3), Store(map[], BothFiles(c, j, [c.src[j.upload][0]]), c.names),
                   map[3 := late]);
    assert s.procs[4 := Fresh(j, Begun)] == map[3 := late, 4 := Fresh(j, Begun)];
    Go(c, s, BeginStream(4, Args(j, WHOLE), "", 1),
       State(Two(j.upload, {0, 1, 2}, 3, 3, 4), s.store, map[3 := late, 4 := Fresh(j, Begun)]));
  }

  lemma FreshEnters(c: Setting, j: Job)
    requires Spoilable(c, j, QuietBegins)
    ensures Reach(c, State(Two(j.upload, {0, 1, 2}, 3, 3, 4), OneSession(c, j, Sess(j, 2, {}), BothFiles(c, j, [])),
                           map[3 := Late(j, Copying(j.part, 1, 1)), 4 := Fresh(j, Entered(j.part))]))
  {
    FreshBegins(c, j);
    var b, late := c.src[j.upload], Late(j, Copying(j.part, 1, 1));
    var procs: map<nat, Proc> := map[3 := late, 4 := Fresh(j, Begun)];
    TruncatedByFirst(c, j, [b[0]]);
    assert procs[4 := Fresh(j, Entered(j.part))] == map[3 := late, 4 := Fresh(j, Entered(j.part))];
    EnterGoes(c, State(Two(j.upload, {0, 1, 2}, 3, 3, 4), Store(map[], BothFiles(c, j, [b[0]]), c.names), procs),
              4, SpecOf(j, WHOLE), OneSession(c, j, Sess(j, 2, {}), BothFiles(c, j, [])), j.part);
  }

  lemma TruncatedByFirst(c: Setting, j: Job, d: Bytes)
    requires JobOk(c, j) && j.part != j.target
    ensures Enter(Store(map[], BothFiles(c, j, d), c.names), SpecOf(j, WHOLE))
         == (OneSession(c, j, Sess(j, 2, {}), BothFiles(c, j, [])), Success(j.part))
  {
    assert Resize(d, 0) == [];
    SetLate(c, j, d, []);
  }

  lemma FreshEnds(c: Setting, j: Job)
    requires Spoilable(c, j, QuietBegins)
    ensures Reach(c, State(Busy(j.upload, {0, 1, 2}, 3, 3), OneSession(c, j, Sess(j, 2, {}), BothFiles(c, j, [])),
                           map[3 := Late(j, Copying(j.part, 1, 1))]))
  {
    FreshEnters(c, j);
    LifeParts(j.upload, {0, 1, 2}, 3, 3, 4);
    var late := Late(j, Copying(j.part, 1, 1));
    var s := State(Two(j.upload, {0, 1, 2}, 3, 3, 4), OneSession(c, j, Sess(j, 2, {}), BothFiles(c, j, [])),
                   map[3 := late, 4 := Fresh(j, Entered(j.part))]);
    assert s.procs - {4} == map[3 := late];
    Go(c, s, EndStream(4), State(Busy(j.upload, {0, 1, 2}, 3, 3), s.store, map[3 := late]));
  }

  /** The late stream goes on behind the truncation. */
  lemma LateWritesSecond(c: Setting, j: Job)
    requires Spoilable(c, j, QuietBegins)
    ensures Reach(c, State(Busy(j.upload, {0, 1, 2}, 3, 3),
                           OneSession(c, j, Sess(j, 2, {}), BothFiles(c, j, [0, c.src[j.upload][1]])),
                           map[3 := Late(j, Copying(j.part, 1, 2))]))
  {
    var b := c.src[j.upload];
    FreshEnds(c, j);
    LateBytes(b);
    SetLate(c, j, [], [0, b[1]]);
    SamePlace(3, Late(j, Copying(j.part, 1, 1)), Late(j, Copying(j.part, 1, 2)));
    WriteGoes(c, State(Busy(j.upload, {0, 1, 2}, 3, 3), OneSession(c, j, Sess(j, 2, {}), BothFiles(c, j, [])),
                       map[3 := Late(j, Copying(j.part, 1, 1))]),
              3, SpecOf(j, Slice(2, 0, false)), Copying(j.part, 1, 1), [b[1]], BothFiles(c, j, [0, b[1]]));
  }

  /** Its chunk counts for the new session. */
  lemma LateRecords(c: Setting, j: Job)
    requires Spoilable(c, j, QuietBegins)
    ensures Reach(c, State(Busy(j.upload, {0, 1, 2}, 3, 3), LateStore(c, j, [0, c.src[j.upload][1]]),
                           map[3 := Late(j, Recorded)]))
  {
    var d := [0, c.src[j.upload][1]];
    var store := OneSession(c, j, Sess(j, 2, {}), BothFiles(c, j, d));
    LateWritesSecond(c, j);
    assert {} + {0} == {0};
    assert store.chunks[j.upload := Sess(j, 2, {0})] == map[j.upload := Sess(j, 2, {0})];
    SamePlace(3, Late(j, Copying(j.part, 1, 2)), Late(j, Recorded));
    RecordGoes(c, State(Busy(j.upload, {0, 1, 2}, 3, 3), store, map[3 := Late(j, Copying(j.part, 1, 2))]),
               3, SpecOf(j, Slice(2, 0, false)), Copying(j.part, 1, 2), LateStore(c, j, d));
  }

  lemma LateEnds(c: Setting, j: Job)
    requires Spoilable(c, j, QuietBegins)
    ensures Reach(c, State(Idle({0, 1, 2, 3}, 4), LateStore(c, j, [0, c.src[j.upload][1]]), map[]))
  {
    LateRecords(c, j);
    LifeEnds(j.upload, {0, 1, 2}, 3, 3);
    assert {0, 1, 2} + {3} == {0, 1, 2, 3};
    var s := State(Busy(j.upload, {0, 1, 2}, 3, 3), LateStore(c, j, [0, c.src[j.upload][1]]),
                   map[3 := Late(j, Recorded)]);
    assert s.procs - {3} == map[];
    Go(c, s, EndStream(3), State(Idle({0, 1, 2, 3}, 4), s.store, map[]));
  }

  lemma HoleSpoils(c: Setting, j: Job, life: L.State, store: Store, p: nat, chunk: int64)
    requires Spoilable(c, j, c.rule) && store.files == BothFiles(c, j, [0, c.src[j.upload][1]])
    requires Reach(c, State(life, store, map[p := Commit(Request(j, chunk), Sized(j.part))]))
    ensures Spoils(c)
  {
    WrongBytes(c, j, life, store, p, chunk);
    RunTo(c, State(life, store, map[p := Commit(Request(j, chunk), Sized(j.part))]), p);
  }

  /** Without the condition on when streams begin, a successful commit can leave a wrong file, for any upload. */
  lemma LateStreamSpoilsNextCommit(c: Setting, j: Job)
    requires Spoilable(c, j, QuietBegins)
    ensures Spoils(c)
  {
    LateEnds(c, j);
    var store := LateStore(c, j, [0, c.src[j.upload][1]]);
    SoloCommit(c, j, {0, 1, 2, 3}, 4, store, 5, 2);
    HoleSpoils(c, j, Idle({0, 1, 2, 3}, 4), store, 5, 2);
  }

  // ---------- a commit that fails after its rename ----------

  /** Two slices of one byte each. */
  function Last(): Slice {
    Slice(1, 1, true)
  }

  /** The second byte goes to a part file that holds the first, or to a new one. */
  lemma SecondUploaded(c: Setting, j: Job, files: Files, parts: set<int>)
    requires JobOk(c, j) && j.part != j.target && j.upload in c.src
    requires files == OneFile(j.part, [c.src[j.upload][0]]) || files == OneFile(j.target, c.src[j.upload])
    ensures var b, store := c.src[j.upload], OneSession(c, j, Sess(j, 1, parts), files);
      && CanEnter(j, Last(), store)
      && Uploaded(c, j, Last(), store)
         == OneSession(c, j, Sess(j, 1, parts + {1}),
                       if j.part in files.names then OneFile(j.part, b) else BothFiles(c, j, [0, b[1]]))
  {
    var b, store := c.src[j.upload], OneSession(c, j, Sess(j, 1, parts), files);
    assert Enter(store, SpecOf(j, Last())) == (store, Success(j.part));
    SecondFilled(c, j, files);
    assert store.chunks[j.upload := Sess(j, 1, parts + {1})] == map[j.upload := Sess(j, 1, parts + {1})];
  }

  lemma SecondFilled(c: Setting, j: Job, files: Files)
    requires JobOk(c, j) && j.part != j.target && j.upload in c.src
    requires files == OneFile(j.part, [c.src[j.upload][0]]) || files == OneFile(j.target, c.src[j.upload])
    ensures HasInode(j, files)
    ensures Filled(c, j, Last(), files)
         == if j.part in files.names then OneFile(j.part, c.src[j.upload]) else BothFiles(c, j, [0, c.src[j.upload][1]])
  {
    var b := c.src[j.upload];
    LateBytes(b);
    if j.part in files.names {
      assert WriteAt([b[0]], 1, [b[1]]) == b;
    } else {
      SecondFile(c, j);
      SetLate(c, j, [], [0, b[1]]);
    }
  }

  lemma BothStreams(c: Setting, j: Job)
    requires JobOk(c, j) && j.part != j.target && j.upload in c.src
    ensures Reach(c, State(Idle({0, 1, 2, 3}, 4),
                           OneSession(c, j, Sess(j, 1, {0, 1}), OneFile(j.part, c.src[j.upload])),
                           map[]))
  {
    var b := c.src[j.upload];
    FirstStream(c, j, 1);
    LateBytes(b);
    SecondUploaded(c, j, OneFile(j.part, [b[0]]), {0});
    SoloStream(c, j, Last(), Idle({0, 1}, 2), {0, 1}, 2, OneSession(c, j, Sess(j, 1, {0}), OneFile(j.part, [b[0]])), 2);
    assert {0, 1} + {2} + {2 + 1} == {0, 1, 2, 3} && {0} + {1} == {0, 1};
  }

  lemma FailedAfterRename(c: Setting, j: Job)
    requires Spoilable(c, j, NoLateFailures)
    ensures Reach(c, State(Idle({0, 1, 2, 3}, 4),
                           OneSession(c, j, Sess(j, 1, {0, 1}), OneFile(j.target, c.src[j.upload])),
                           map[]))
  {
    BothStreams(c, j);
    var b, life := c.src[j.upload], Idle({0, 1, 2, 3}, 4);
    RenamedOne(j, b);
    SoloRename(c, j, {0, 1, 2, 3}, 4, OneSession(c, j, Sess(j, 1, {0, 1}), OneFile(j.part, b)), OneFile(j.target, b),
               3, 1);
    var s := State(life, OneSession(c, j, Sess(j, 1, {0, 1}), OneFile(j.target, b)),
                   map[3 := Commit(Request(j, 1), Renamed)]);
    assert s.procs - {3} == map[];
    Go(c, s, FailCommit(3), s.(procs := map[]));
  }

  /**
   After a failure behind the rename the session stays complete without its file: one more chunk, and a hole is
   committed.
   */
  lemma LateFailureSpoilsRetry(c: Setting, j: Job)
    requires Spoilable(c, j, NoLateFailures)
    ensures Spoils(c)
  {
    FailedAfterRename(c, j);
    SecondUploaded(c, j, OneFile(j.target, c.src[j.upload]), {0, 1});
    SoloStream(c, j, Last(), Idle({0, 1, 2, 3}, 4), {0, 1, 2, 3}, 4,
               OneSession(c, j, Sess(j, 1, {0, 1}), OneFile(j.target, c.src[j.upload])), 4);
    assert {0, 1} + {1} == {0, 1};
    assert {0, 1, 2, 3} + {4} + {4 + 1} == {0, 1, 2, 3, 4, 5};
    var store := OneSession(c, j, Sess(j, 1, {0, 1}), BothFiles(c, j, [0, c.src[j.upload][1]]));
    SoloCommit(c, j, {0, 1, 2, 3, 4, 5}, 6, store, 5, 1);
    HoleSpoils(c, j, Idle({0, 1, 2, 3, 4, 5}, 6), store, 5, 1);
  }
}
