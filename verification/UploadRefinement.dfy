/**
 A committed upload is its source.

 `ContentInv` ties every session, running stream and running commit to the one source of
 its upload, and every event keeps it as long as the run is benign: streams deliver pieces
 of the source, no stream of an upload begins while a commit or cancel of it is between its
 wait and its end, and no commit fails after its rename.  Names must be told apart too:
 ids are plain, and no target reads like a part file.  `UploadCollisions` shows that none of
 these conditions but the first, which says what the source is, can be left out.
 */
module UploadRefinement {
  import opened Prelude
  import opened ChunkGeometry
  import opened UploadProtocol
  import opened PartNames
  import L = UploadLifecycle

  type Sources = map<string, Bytes>

  function SourceOf(src: Sources, u: string): Bytes {
    if u in src then src[u] else []
  }

  // ---------- what a run must do ----------

  predicate Quiet(s: State, u: string) {
    forall p :: p in s.procs && s.procs[p].Upload() == u ==> !s.procs[p].InWindow()
  }

  predicate Benign(src: Sources, s: State, e: Event)
    requires Enabled(s, e)
  {
    match e
    case BeginStream(p, args, _, _) => p in Step(s, e).procs ==> Quiet(s, args.upload)
    case WritePiece(p, piece) =>
      var at := s.procs[p].spec.offset + s.procs[p].spc.written;
      var b := SourceOf(src, s.procs[p].spec.upload);
      at + |piece| <= |b| && piece == b[at..at + |piece|]
    case FailCommit(p) => !s.procs[p].cpc.Renamed?
    case _ => true
  }

  predicate BenignRun(src: Sources, s: State, run: seq<Event>)
    decreases |run|
  {
    run == [] || (Enabled(s, run[0]) && Benign(src, s, run[0]) && BenignRun(src, Step(s, run[0]), run[1..]))
  }

  /** Ids are plain, and no target of a commit is an upload's part file. */
  ghost predicate Named(part: (string, string) -> Path, e: Event) {
    match e
    case BeginStream(_, args, _, _) => PlainId(args.upload)
    case AskCommit(_, r) => PlainId(r.upload) && Aside(part, r.path)
    case AskCancel(_, id, _, _, _) => PlainId(id)
    case _ => true
  }

  ghost predicate AllNamed(part: (string, string) -> Path, run: seq<Event>) {
    forall e :: e in run ==> Named(part, e)
  }

  // ---------- streams and the lifecycle table ----------

  ghost predicate GoodSpec(spec: Spec) {
    && spec.total > 0 && spec.chunk > 0 && spec.path != "" && spec.upload != ""
    && spec.count == ChunkCount(spec.total, spec.chunk)
    && 0 <= spec.index < spec.count
    && spec.offset == ChunkStart(spec.chunk, spec.index) >= 0
    && spec.offset + spec.expected == ChunkEnd(spec.total, spec.chunk, spec.index)
  }

  /** Streams are exactly the outstanding handles of the lifecycle table. */
  ghost predicate Linked(s: State) {
    && L.Inv(s.life) && s.life.waiters == map[]
    && (forall p :: p in s.life.handles ==> IsStream(s, p))
    && (forall p :: IsStream(s, p) ==> p in s.life.handles && s.life.handles[p].upload == s.procs[p].spec.upload)
    && (forall p :: IsStream(s, p) ==> GoodSpec(s.procs[p].spec))
  }

  lemma ParsedSpecIsGood(a: StreamArgs)
    requires ParseStreamSpec(a).Success? && a.path != ""
    ensures GoodSpec(ParseStreamSpec(a).value) && ParseStreamSpec(a).value.upload == a.upload
    ensures ParseStreamSpec(a).value.path == a.path
  {
    ParseAcceptsExactly(a);
    IndexTest(a.total, ChunkOrDefault(a.chunk), a.index);
  }

  lemma BeginKeepsLinked(s: State, e: Event)
    requires Linked(s) && Enabled(s, e) && e.BeginStream?
    ensures Linked(Step(s, e))
  {
    L.StepKeepsInv(s.life, L.EvBegin(e.p, e.args.upload, e.stream, e.now));
    ParsedSpecIsGood(e.args);
  }

  lemma EndKeepsLinked(s: State, e: Event)
    requires Linked(s) && Enabled(s, e) && e.EndStream?
    ensures Linked(Step(s, e))
  {
    L.StepKeepsInv(s.life, L.EvEnd(e.p));
  }

  /** Only process p changes, and not in being a stream of its spec. */
  predicate OnlyMoves(s: State, s': State, p: nat) {
    && s'.procs - {p} == s.procs - {p}
    && (IsStream(s, p) <==> IsStream(s', p))
    && (IsStream(s, p) ==> s'.procs[p].spec == s.procs[p].spec)
  }

  lemma OnlyMovesKeepsLinked(s: State, s': State, p: nat)
    requires Linked(s) && OnlyMoves(s, s', p) && s'.life == s.life
    ensures Linked(s')
  {
    forall q ensures IsStream(s', q) <==> IsStream(s, q)
             ensures IsStream(s, q) ==> s'.procs[q].spec == s.procs[q].spec {
      if q != p {
        assert q in s'.procs <==> q in s'.procs - {p};
        assert q in s.procs <==> q in s.procs - {p};
        assert q in s.procs ==> (s'.procs - {p})[q] == (s.procs - {p})[q];
      }
    }
  }

  lemma WaitKeepsLinked(s: State, e: Event)
    requires Linked(s) && Enabled(s, e) && (e.AwaitCommit? || e.AwaitCancel?)
    ensures Linked(Step(s, e)) && Step(s, e).life == s.life
  {
    L.WaitKeeps(s.life, L.EvWait(e.p, s.procs[e.p].Upload()));
    OnlyMovesKeepsLinked(s, Step(s, e), e.p);
  }

  lemma CancelKeepsLinked(s: State, e: Event)
    requires Linked(s) && Enabled(s, e) && e.AskCancel?
    ensures Linked(Step(s, e))
  {
    L.StepKeepsInv(s.life, L.EvCancel(e.id, e.now, e.now'));
  }

  predicate StreamEvent(e: Event) {
    e.EnterStream? || e.OpenPart? || e.WritePiece? || e.RecordChunk?
  }

  predicate CommitEvent(e: Event) {
    e.AskCommit? || e.CheckSession? || e.StatPart? || e.TruncatePart? || e.RenamePart? || e.FinishCommit?
        || e.FailCommit?
  }

  predicate CancelEvent(e: Event) {
    e.CancelSession? || e.MissSession? || e.UnlinkPart? || e.FailCancel?
  }

  lemma StreamEventMoves(s: State, e: Event)
    requires Enabled(s, e) && StreamEvent(e)
    ensures OnlyMoves(s, Step(s, e), e.p) && Step(s, e).life == s.life
  {
  }

  lemma CommitEventMoves(s: State, e: Event)
    requires Enabled(s, e) && CommitEvent(e)
    ensures OnlyMoves(s, Step(s, e), e.p) && Step(s, e).life == s.life
  {
  }

  lemma CancelEventMoves(s: State, e: Event)
    requires Enabled(s, e) && CancelEvent(e)
    ensures OnlyMoves(s, Step(s, e), e.p) && Step(s, e).life == s.life
  {
  }

  lemma StepKeepsLinked(s: State, e: Event)
    requires Linked(s) && Enabled(s, e)
    ensures Linked(Step(s, e))
  {
    if e.BeginStream? {
      BeginKeepsLinked(s, e);
    } else if e.EndStream? {
      EndKeepsLinked(s, e);
    } else if e.AwaitCommit? || e.AwaitCancel? {
      WaitKeepsLinked(s, e);
    } else if e.AskCancel? {
      CancelKeepsLinked(s, e);
    } else {
      if StreamEvent(e) {
        StreamEventMoves(s, e);
      } else if CommitEvent(e) {
        CommitEventMoves(s, e);
      } else {
        CancelEventMoves(s, e);
      }
      OnlyMovesKeepsLinked(s, Step(s, e), e.p);
    }
  }

  ghost predicate NoStreams(s: State, u: string) {
    forall p :: IsStream(s, p) ==> s.procs[p].spec.upload != u
  }

  /** The wait lets a commit or cancel through only when no stream of the upload is running. */
  lemma WaitFindsNoStreams(s: State, u: string)
    requires Linked(s) && u != "" && L.Wait(s.life.core, u).1.None?
    ensures NoStreams(s, u)
  {
    L.ActiveIffOutstanding(s.life, u);
    forall p | IsStream(s, p) ensures s.procs[p].spec.upload != u {
      assert s.life.handles[p].upload == u ==> p in L.Outstanding(s.life, u);
    }
  }

  // ---------- bytes ----------

  predicate SameByte(d: Bytes, b: Bytes, k: nat) {
    k < |d| && k < |b| && d[k] == b[k]
  }

  /** d and b hold the same bytes at lo .. hi - 1. */
  ghost predicate Agree(d: Bytes, b: Bytes, lo: int, hi: int) {
    forall k :: 0 <= lo <= k < hi ==> SameByte(d, b, k)
  }

  lemma WriteKeepsAgreement(d: Bytes, b: Bytes, off: nat, piece: Bytes, lo: int, hi: int)
    requires piece != [] && off + |piece| <= |b| && piece == b[off..off + |piece|]
    requires Agree(d, b, lo, hi)
    ensures Agree(WriteAt(d, off, piece), b, lo, hi)
  {
    forall k | 0 <= lo <= k < hi ensures SameByte(WriteAt(d, off, piece), b, k) {
      assert SameByte(d, b, k);
    }
  }

  lemma WriteExtendsAgreement(d: Bytes, b: Bytes, lo: nat, off: nat, piece: Bytes)
    requires piece != [] && off + |piece| <= |b| && piece == b[off..off + |piece|]
    requires Agree(d, b, lo, off)
    ensures Agree(WriteAt(d, off, piece), b, lo, off + |piece|)
  {
    WriteKeepsAgreement(d, b, off, piece, lo, off);
  }

  lemma ResizeKeepsAgreement(d: Bytes, b: Bytes, n: nat, lo: int, hi: int)
    requires Agree(d, b, lo, hi) && hi <= n
    ensures Agree(Resize(d, n), b, lo, hi)
  {
    forall k | 0 <= lo <= k < hi ensures SameByte(Resize(d, n), b, k) {
      assert SameByte(d, b, k);
    }
  }

  lemma FullAgreementIsEquality(d: Bytes, b: Bytes, total: nat)
    requires Agree(d, b, 0, total) && |d| == total
    ensures total <= |b| && d == b[..total]
  {
    if total > 0 {
      assert SameByte(d, b, total - 1);
    }
    forall k | 0 <= k < total ensures d[k] == b[..total][k] {
      assert SameByte(d, b, k);
    }
  }

  /** All chunks on disk means the whole file is. */
  lemma ChunksCoverFile(d: Bytes, b: Bytes, total: nat, chunk: nat)
    requires chunk > 0
    requires forall i :: 0 <= i < ChunkCount(total, chunk) ==>
               Agree(d, b, ChunkStart(chunk, i), ChunkEnd(total, chunk, i))
    ensures Agree(d, b, 0, total)
  {
    forall k | 0 <= k < total ensures SameByte(d, b, k) {
      ChunkOfPosition(total, chunk, k);
      assert Agree(d, b, ChunkStart(chunk, k / chunk), ChunkEnd(total, chunk, k / chunk));
    }
  }

  // ---------- the invariant ----------

  ghost predicate FilesOk(f: Files) {
    && (forall p :: p in f.names ==> f.names[p] in f.data && f.names[p] < f.next)
    && (forall p, q :: p in f.names && q in f.names && p != q ==> f.names[p] != f.names[q])
  }

  ghost predicate IsMoved(s: State, p: nat, u: string) {
    IsCommit(s, p) && s.procs[p].req.upload == u && s.procs[p].cpc.Renamed?
  }

  /** A session: every recorded chunk is on disk, unless a commit has just moved the file away. */
  ghost predicate SessionOk(src: Sources, s: State, u: string) {
    u in s.store.chunks ==>
      var sess := s.store.chunks[u];
      && sess.total > 0 && sess.chunk > 0 && sess.target != ""
      && sess.count == ChunkCount(sess.total, sess.chunk) > 0
      && sess.temp == Some(s.store.part(sess.target, u))
      && (forall i :: i in sess.parts ==> 0 <= i < sess.count)
      && (sess.temp.value in s.store.files.names ==>
            forall i :: i in sess.parts ==>
              Agree(Content(s.store.files, sess.temp.value), SourceOf(src, u),
                    ChunkStart(sess.chunk, i), ChunkEnd(sess.total, sess.chunk, i)))
      && (sess.temp.value in s.store.files.names || exists p :: IsMoved(s, p, u))
  }

  ghost predicate Fits(sess: Session, spec: Spec) {
    sess.total == spec.total && sess.chunk == spec.chunk && sess.target == spec.path && sess.count == spec.count
  }

  /** A running stream writes the session's part file, and what it has written is its slice of the source. */
  ghost predicate StreamOk(src: Sources, s: State, p: nat)
    requires IsStream(s, p)
  {
    var Stream(spec, pc) := s.procs[p];
    var u := spec.upload;
    && (pc.Entered? || pc.Copying? ==>
          && u in s.store.chunks && Fits(s.store.chunks[u], spec)
          && pc.part == s.store.part(spec.path, u) && pc.part in s.store.files.names)
    && (pc.Copying? ==>
          && s.store.files.names[pc.part] == pc.inode && pc.inode in s.store.files.data
          && pc.written <= spec.expected
          && Agree(s.store.files.data[pc.inode], SourceOf(src, u), spec.offset, spec.offset + pc.written))
  }

  predicate RequestOk(r: CommitRequest) {
    r.total > 0 && r.path != "" && r.upload != ""
  }

  /** A commit past its checks: the part file, while it is there, starts with the whole source. */
  ghost predicate CommitOk(src: Sources, s: State, p: nat)
    requires IsCommit(s, p)
  {
    var Commit(r, pc) := s.procs[p];
    && RequestOk(r)
    && (s.procs[p].PastCheck() ==>
          var part := s.procs[p].CommitPart();
          && part == s.store.part(r.path, r.upload)
          && (r.upload in s.store.chunks ==>
                s.store.chunks[r.upload].total == r.total && s.store.chunks[r.upload].target == r.path)
          && (part in s.store.files.names ==>
                && Agree(Content(s.store.files, part), SourceOf(src, r.upload), 0, r.total)
                && (pc.Sized? || (pc.Statted? && pc.size <= r.total) ==> |Content(s.store.files, part)| == r.total)))
  }

  ghost predicate WindowOk(s: State, u: string) {
    forall p :: p in s.procs && s.procs[p].Upload() == u && s.procs[p].InWindow() ==> NoStreams(s, u)
  }

  /** Commits of one upload that are past their checks agree on what they commit. */
  ghost predicate CommitsAgree(s: State, u: string) {
    forall p, q :: p in s.procs && q in s.procs && s.procs[p].Upload() == u == s.procs[q].Upload()
                   && s.procs[p].PastCheck() && s.procs[q].PastCheck() ==>
      s.procs[p].req.total == s.procs[q].req.total && s.procs[p].req.path == s.procs[q].req.path
  }

  /** A cancel that found no session: there still is none. */
  ghost predicate MissingOk(s: State, u: string) {
    forall p :: IsCancel(s, p) && s.procs[p].id == u && s.procs[p].xpc.SessionMissing? ==> u !in s.store.chunks
  }

  ghost predicate UploadOk(src: Sources, s: State, u: string) {
    && SessionOk(src, s, u)
    && MissingOk(s, u)
    && WindowOk(s, u)
    && CommitsAgree(s, u)
    && (forall p :: IsStream(s, p) && s.procs[p].spec.upload == u ==> StreamOk(src, s, p))
    && (forall p :: IsCommit(s, p) && s.procs[p].req.upload == u ==> CommitOk(src, s, p))
  }

  ghost predicate AllOk(src: Sources, s: State) {
    forall u :: PlainId(u) ==> UploadOk(src, s, u)
  }

  /** Every upload has part files of its own, and no commit's target is one of them. */
  ghost predicate Apart(s: State) {
    && Separates(s.store.part)
    && (forall p :: p in s.procs ==> PlainId(s.procs[p].Upload()))
    && (forall p :: IsCommit(s, p) ==> Aside(s.store.part, s.procs[p].req.path))
  }

  ghost predicate ContentInv(src: Sources, s: State) {
    Linked(s) && Apart(s) && FilesOk(s.store.files) && AllOk(src, s)
  }

  /** What most events need of the invariant. */
  ghost predicate Held(src: Sources, s: State) {
    Separates(s.store.part) && FilesOk(s.store.files) && AllOk(src, s)
  }

  ghost predicate GoodStream(s: State, p: nat) {
    PlainProc(s, p) && IsStream(s, p) && GoodSpec(s.procs[p].spec)
  }

  predicate PlainProc(s: State, p: nat) {
    p in s.procs && PlainId(s.procs[p].Upload())
  }

  lemma NamingStays(s: State, e: Event)
    requires Enabled(s, e)
    ensures Step(s, e).store.part == s.store.part
  {
  }

  /** A process keeps its upload and its request; a new one has those of its event. */
  lemma ProcNamed(s: State, e: Event, p: nat)
    requires Apart(s) && Enabled(s, e) && Named(s.store.part, e) && p in Step(s, e).procs
    ensures PlainId(Step(s, e).procs[p].Upload())
    ensures IsCommit(Step(s, e), p) ==> Aside(s.store.part, Step(s, e).procs[p].req.path)
  {
    ProcOrigin(s, e, p);
  }

  lemma ProcOrigin(s: State, e: Event, p: nat)
    requires Enabled(s, e) && p in Step(s, e).procs
    ensures var proc := Step(s, e).procs[p];
      || (p in s.procs && proc.Upload() == s.procs[p].Upload() && (proc.Commit? <==> s.procs[p].Commit?)
          && (proc.Commit? ==> proc.req == s.procs[p].req))
      || (p == e.p && e.BeginStream? && proc.Stream? && proc.Upload() == e.args.upload)
      || (p == e.p && e.AskCommit? && proc.Commit? && proc.req == Resolved(e.request))
      || (p == e.p && e.AskCancel? && proc.Cancel? && proc.Upload() == e.id)
  {
  }

  lemma StepKeepsApart(s: State, e: Event)
    requires Apart(s) && Enabled(s, e) && Named(s.store.part, e)
    ensures Apart(Step(s, e)) && Step(s, e).store.part == s.store.part
  {
    NamingStays(s, e);
    forall p | p in Step(s, e).procs
      ensures PlainId(Step(s, e).procs[p].Upload())
      ensures IsCommit(Step(s, e), p) ==> Aside(s.store.part, Step(s, e).procs[p].req.path)
    {
      ProcNamed(s, e, p);
    }
  }

  // ---------- frames: what one upload does leaves the others alone ----------

  /** Nothing that upload v depends on differs between s and s'. */
  ghost predicate SameFor(s: State, s': State, v: string) {
    && (v in s.store.chunks <==> v in s'.store.chunks)
    && (v in s.store.chunks ==> s.store.chunks[v] == s'.store.chunks[v])
    && (forall p :: p in s.procs && s.procs[p].Upload() == v ==> p in s'.procs && s'.procs[p] == s.procs[p])
    && (forall p :: p in s'.procs && s'.procs[p].Upload() == v ==> p in s.procs && s.procs[p] == s'.procs[p])
    && s'.store.part == s.store.part && (forall t :: SameFile(s.store.files, s'.store.files, s.store.part(t, v)))
  }

  /** A path names the same bytes in both, or nothing in either. */
  predicate SameFile(f: Files, f': Files, path: Path) {
    && (path in f.names <==> path in f'.names)
    && (path in f.names ==>
          && f'.names[path] == f.names[path] && f.names[path] in f.data && f.names[path] in f'.data
          && f'.data[f.names[path]] == f.data[f.names[path]])
  }

  lemma SameForKeepsSession(src: Sources, s: State, s': State, v: string)
    requires SessionOk(src, s, v) && SameFor(s, s', v)
    ensures SessionOk(src, s', v)
  {
    if v in s.store.chunks {
      var sess := s.store.chunks[v];
      if sess.temp.value !in s.store.files.names {
        var p :| IsMoved(s, p, v);
        assert IsMoved(s', p, v);
      }
    }
  }

  lemma SameForKeepsStream(src: Sources, s: State, s': State, v: string, p: nat)
    requires IsStream(s, p) && IsStream(s', p) && s'.procs[p] == s.procs[p] && s.procs[p].spec.upload == v
    requires StreamOk(src, s, p) && SameFor(s, s', v)
    ensures StreamOk(src, s', p)
  {
  }

  lemma SameForKeepsCommit(src: Sources, s: State, s': State, v: string, p: nat)
    requires IsCommit(s, p) && IsCommit(s', p) && s'.procs[p] == s.procs[p] && s.procs[p].req.upload == v
    requires CommitOk(src, s, p) && SameFor(s, s', v)
    ensures CommitOk(src, s', p)
  {
  }

  lemma SameForKeepsUpload(src: Sources, s: State, s': State, v: string)
    requires UploadOk(src, s, v) && SameFor(s, s', v)
    ensures UploadOk(src, s', v)
  {
    SameForKeepsSession(src, s, s', v);
    forall p | IsStream(s', p) && s'.procs[p].spec.upload == v ensures StreamOk(src, s', p) {
      assert s'.procs[p].Upload() == v;
      SameForKeepsStream(src, s, s', v, p);
    }
    forall p | IsCommit(s', p) && s'.procs[p].req.upload == v ensures CommitOk(src, s', p) {
      assert s'.procs[p].Upload() == v;
      SameForKeepsCommit(src, s, s', v, p);
    }
    forall p | p in s'.procs && s'.procs[p].Upload() == v && s'.procs[p].InWindow() ensures NoStreams(s', v) {
      assert NoStreams(s, v);
      forall q | IsStream(s', q) ensures s'.procs[q].spec.upload != v {
        assert s'.procs[q].Upload() == s'.procs[q].spec.upload;
      }
    }
  }

  /** Only process p of upload u changes, and sessions only at u. */
  ghost predicate Local(s: State, s': State, p: nat, u: string) {
    && (forall q :: q != p ==> (q in s.procs <==> q in s'.procs))
    && (forall q :: q != p && q in s.procs ==> s'.procs[q] == s.procs[q])
    && (p in s.procs ==> s.procs[p].Upload() == u) && (p in s'.procs ==> s'.procs[p].Upload() == u)
    && s'.store.part == s.store.part
    && (forall v :: v != u ==> (v in s.store.chunks <==> v in s'.store.chunks))
    && (forall v :: v != u && v in s.store.chunks ==> s.store.chunks[v] == s'.store.chunks[v])
  }

  /** No part file of another upload changes. */
  ghost predicate FilesLocal(part: (string, string) -> Path, f: Files, f': Files, u: string) {
    forall t, v :: v != u && PlainId(v) ==> SameFile(f, f', part(t, v))
  }

  lemma OthersKept(src: Sources, s: State, s': State, p: nat, u: string)
    requires AllOk(src, s)
    requires Local(s, s', p, u) && FilesLocal(s.store.part, s.store.files, s'.store.files, u)
    requires UploadOk(src, s', u)
    ensures AllOk(src, s')
  {
    forall v | PlainId(v) ensures UploadOk(src, s', v) {
      assert UploadOk(src, s, v);
      if v != u {
        assert SameFor(s, s', v);
        SameForKeepsUpload(src, s, s', v);
      }
    }
  }

  // ---------- file operations ----------

  lemma CreateFacts(f: Files, p: Path)
    requires FilesOk(f)
    ensures FilesOk(Create(f, p)) && p in Create(f, p).names
    ensures forall q :: q != p ==> SameFile(f, Create(f, p), q)
  {
  }

  lemma SetFacts(f: Files, p: Path, d: Bytes)
    requires FilesOk(f) && p in f.names
    ensures var f' := SetInode(f, f.names[p], d);
      FilesOk(f') && f'.names == f.names && Content(f', p) == d && forall q :: q != p ==> SameFile(f, f', q)
  {
  }

  lemma RenameFacts(f: Files, from: Path, to: Path)
    requires FilesOk(f) && from in f.names && from != to
    ensures var f' := Rename(f, from, to);
      && FilesOk(f') && f'.data == f.data && from !in f'.names
      && to in f'.names && Content(f', to) == Content(f, from)
      && (forall q :: q != from && q != to ==> SameFile(f, f', q))
  {
    var f' := Rename(f, from, to);
    forall p, q | p in f'.names && q in f'.names && p != q ensures f'.names[p] != f'.names[q] {
      var p0, q0 := if p == to then from else p, if q == to then from else q;
      assert p0 in f.names && q0 in f.names && p0 != q0;
    }
  }

  lemma RemoveFacts(f: Files, p: Path)
    requires FilesOk(f)
    ensures FilesOk(Remove(f, p)) && p !in Remove(f, p).names
    ensures forall q :: q != p ==> SameFile(f, Remove(f, p), q)
  {
  }

  /** What happens at an upload's own part file is no other upload's business. */
  lemma OwnPartOnly(part: (string, string) -> Path, f: Files, f': Files, t: string, u: string)
    requires Separates(part) && PlainId(u)
    requires forall q :: q != part(t, u) ==> SameFile(f, f', q)
    ensures FilesLocal(part, f, f', u)
  {
  }

  /** Neither is what happens at a path that is no part file. */
  lemma OwnPartAndTarget(part: (string, string) -> Path, f: Files, f': Files, t: string, u: string, target: Path)
    requires Separates(part) && PlainId(u) && Aside(part, target)
    requires forall q :: q != part(t, u) && q != target ==> SameFile(f, f', q)
    ensures FilesLocal(part, f, f', u)
  {
  }

  // ---------- events that only move a process ----------

  lemma ProcEventKeeps(src: Sources, s: State, s': State, p: nat, u: string)
    requires UploadOk(src, s, u) && s'.store == s.store && Local(s, s', p, u)
    requires p in s.procs && s.procs[p].Commit? ==> !s.procs[p].cpc.Renamed?
    requires IsStream(s', p) ==> StreamOk(src, s', p)
    requires IsCommit(s', p) ==> CommitOk(src, s', p)
    requires IsCancel(s', p) && s'.procs[p].xpc.SessionMissing? ==> u !in s.store.chunks
    requires p in s'.procs && s'.procs[p].PastCheck() ==>
      forall q :: q in s.procs && s.procs[q].Upload() == u && s.procs[q].PastCheck() ==>
        s.procs[q].req.total == s'.procs[p].req.total && s.procs[q].req.path == s'.procs[p].req.path
    requires WindowOk(s', u)
    ensures UploadOk(src, s', u)
  {
    ProcEventKeepsSession(src, s, s', p, u);
    forall q | IsStream(s', q) && s'.procs[q].spec.upload == u ensures StreamOk(src, s', q) {
      if q != p {
        assert IsStream(s, q) && StreamOk(src, s, q);
      }
    }
    forall q | IsCommit(s', q) && s'.procs[q].req.upload == u ensures CommitOk(src, s', q) {
      if q != p {
        assert IsCommit(s, q) && CommitOk(src, s, q);
      }
    }
  }

  lemma ProcEventKeepsSession(src: Sources, s: State, s': State, p: nat, u: string)
    requires SessionOk(src, s, u) && s'.store == s.store && Local(s, s', p, u)
    requires p in s.procs && s.procs[p].Commit? ==> !s.procs[p].cpc.Renamed?
    ensures SessionOk(src, s', u)
  {
    if u in s.store.chunks && s.store.chunks[u].temp.value !in s.store.files.names {
      var q :| IsMoved(s, q, u);
      assert IsMoved(s', q, u);
    }
  }

  /** A process that leaves, or that moves outside the window, disturbs no window. */
  lemma WindowKept(s: State, s': State, p: nat, u: string)
    requires WindowOk(s, u) && Local(s, s', p, u)
    requires p in s'.procs && s'.procs[p].InWindow() ==> NoStreams(s', u)
    requires IsStream(s', p) && !IsStream(s, p) ==> Quiet(s, u)
    ensures WindowOk(s', u)
  {
    forall q | q in s'.procs && s'.procs[q].Upload() == u && s'.procs[q].InWindow() ensures NoStreams(s', u) {
      if q != p {
        assert q in s.procs && NoStreams(s, u);
        forall r | IsStream(s', r) ensures s'.procs[r].spec.upload != u {
          if r != p {
            assert IsStream(s, r);
          }
        }
      }
    }
  }

  lemma BeginKeeps(src: Sources, s: State, e: Event)
    requires Held(src, s) && Enabled(s, e) && Benign(src, s, e) && e.BeginStream? && PlainId(e.args.upload)
    ensures AllOk(src, Step(s, e))
  {
    var s', u := Step(s, e), e.args.upload;
    ParsedSpecIsGood(e.args);
    if e.p in s'.procs {
      assert UploadOk(src, s, u);
      WindowKept(s, s', e.p, u);
      ProcEventKeeps(src, s, s', e.p, u);
      FilesUnchanged(s.store.part, s.store.files, u);
      OthersKept(src, s, s', e.p, u);
    } else {
      SameProcs(src, s, s');
    }
  }

  lemma FilesUnchanged(part: (string, string) -> Path, f: Files, u: string)
    requires FilesOk(f)
    ensures FilesLocal(part, f, f, u)
  {
  }

  lemma SameProcs(src: Sources, s: State, s': State)
    requires Held(src, s) && s'.store == s.store && s'.procs == s.procs
    ensures AllOk(src, s')
  {
    forall v | PlainId(v) ensures UploadOk(src, s', v) {
      assert UploadOk(src, s, v);
      assert SameFor(s, s', v);
      SameForKeepsUpload(src, s, s', v);
    }
  }

  lemma EndKeeps(src: Sources, s: State, e: Event)
    requires Held(src, s) && Enabled(s, e) && e.EndStream?
    requires PlainProc(s, e.p)
    ensures AllOk(src, Step(s, e))
  {
    var s', u := Step(s, e), s.procs[e.p].Upload();
    assert UploadOk(src, s, u);
    WindowKept(s, s', e.p, u);
    ProcEventKeeps(src, s, s', e.p, u);
    FilesUnchanged(s.store.part, s.store.files, u);
    OthersKept(src, s, s', e.p, u);
  }

  lemma AskFrame(s: State, e: Event)
    requires Enabled(s, e) && (e.AskCommit? || e.AskCancel?)
    ensures var s' := Step(s, e);
      && s'.store == s.store && e.p !in s.procs && e.p in s'.procs && Local(s, s', e.p, s'.procs[e.p].Upload())
      && !s'.procs[e.p].InWindow() && !IsStream(s', e.p)
      && (IsCommit(s', e.p) ==> RequestOk(s'.procs[e.p].req))
  {
  }

  lemma AskKeeps(src: Sources, s: State, e: Event)
    requires Held(src, s) && Enabled(s, e) && (e.AskCommit? || e.AskCancel?) && Named(s.store.part, e)
    ensures AllOk(src, Step(s, e))
  {
    AskFrame(s, e);
    NewProcKeeps(src, s, Step(s, e), e.p);
  }

  lemma NewProcKeeps(src: Sources, s: State, s': State, p: nat)
    requires Held(src, s) && s'.store == s.store && p !in s.procs && p in s'.procs
    requires Local(s, s', p, s'.procs[p].Upload()) && !s'.procs[p].InWindow() && !IsStream(s', p)
    requires PlainId(s'.procs[p].Upload())
    requires IsCommit(s', p) ==> RequestOk(s'.procs[p].req)
    ensures AllOk(src, s')
  {
    var u := s'.procs[p].Upload();
    assert UploadOk(src, s, u);
    WindowKept(s, s', p, u);
    ProcEventKeeps(src, s, s', p, u);
    FilesUnchanged(s.store.part, s.store.files, u);
    OthersKept(src, s, s', p, u);
  }

  lemma AwaitKeeps(src: Sources, s: State, e: Event)
    requires Held(src, s) && Enabled(s, e) && (e.AwaitCommit? || e.AwaitCancel?)
    requires Linked(s) && PlainProc(s, e.p)
    ensures AllOk(src, Step(s, e))
  {
    var s', u := Step(s, e), s.procs[e.p].Upload();
    assert UploadOk(src, s, u);
    AwaitFindsNoStreams(s, e);
    WindowKept(s, s', e.p, u);
    ProcEventKeeps(src, s, s', e.p, u);
    FilesUnchanged(s.store.part, s.store.files, u);
    OthersKept(src, s, s', e.p, u);
  }

  /** Cancels of the empty id are refused at the door, commits of it too. */
  lemma AwaitFindsNoStreams(s: State, e: Event)
    requires Linked(s) && Enabled(s, e) && (e.AwaitCommit? || e.AwaitCancel?)
    ensures NoStreams(Step(s, e), s.procs[e.p].Upload())
  {
    var u := s.procs[e.p].Upload();
    var s' := Step(s, e);
    if u != "" {
      WaitFindsNoStreams(s, u);
    }
    forall q | IsStream(s', q) ensures s'.procs[q].spec.upload != u {
      assert IsStream(s, q) && GoodSpec(s.procs[q].spec);
    }
  }

  lemma FailKeeps(src: Sources, s: State, e: Event)
    requires Held(src, s) && Enabled(s, e) && Benign(src, s, e) && (e.FailCommit? || e.FailCancel? || e.MissSession?)
    requires PlainProc(s, e.p)
    ensures AllOk(src, Step(s, e))
  {
    var s', u := Step(s, e), s.procs[e.p].Upload();
    assert UploadOk(src, s, u);
    WindowStays(s, s', e.p, u);
    ProcEventKeeps(src, s, s', e.p, u);
    FilesUnchanged(s.store.part, s.store.files, u);
    OthersKept(src, s, s', e.p, u);
  }

  /** A process already in its window, or leaving it, finds no new stream. */
  lemma WindowStays(s: State, s': State, p: nat, u: string)
    requires WindowOk(s, u) && Local(s, s', p, u) && p in s.procs && !IsStream(s', p)
    requires p in s'.procs && s'.procs[p].InWindow() ==> s.procs[p].InWindow()
    ensures WindowOk(s', u)
  {
    if p in s'.procs && s'.procs[p].InWindow() {
      assert NoStreams(s, u);
      forall r | IsStream(s', r) ensures s'.procs[r].spec.upload != u {
        assert IsStream(s, r);
      }
    }
    WindowKept(s, s', p, u);
  }

  // ---------- the commit ----------

  /** The completeness test: as many chunks recorded as there are means every chunk is recorded. */
  lemma CompleteSessionHoldsSource(src: Sources, s: State, r: CommitRequest)
    requires SessionOk(src, s, r.upload) && CheckCommit(s.store, r).Success?
    requires s.store.chunks[r.upload].temp.value in s.store.files.names
    ensures Agree(Content(s.store.files, s.store.chunks[r.upload].temp.value), SourceOf(src, r.upload), 0,
                  s.store.chunks[r.upload].total)
  {
    var sess := s.store.chunks[r.upload];
    var all := Below(sess.count);
    assert sess.parts <= all;
    FullSubset(sess.parts, all);
    ChunksCoverFile(Content(s.store.files, sess.temp.value), SourceOf(src, r.upload), sess.total, sess.chunk);
  }

  lemma CheckKeeps(src: Sources, s: State, e: Event)
    requires Held(src, s) && Enabled(s, e) && e.CheckSession?
    requires PlainProc(s, e.p)
    ensures AllOk(src, Step(s, e))
  {
    var s', u := Step(s, e), s.procs[e.p].req.upload;
    assert UploadOk(src, s, u) && CommitOk(src, s, e.p);
    var sess := s.store.chunks[u];
    if sess.temp.value in s.store.files.names {
      CompleteSessionHoldsSource(src, s, s.procs[e.p].req);
    }
    forall q | q in s.procs && s.procs[q].Upload() == u && s.procs[q].PastCheck()
      ensures s.procs[q].req.total == s'.procs[e.p].req.total && s.procs[q].req.path == s'.procs[e.p].req.path
    {
      assert IsCommit(s, q) && CommitOk(src, s, q);
    }
    WindowStays(s, s', e.p, u);
    ProcEventKeeps(src, s, s', e.p, u);
    FilesUnchanged(s.store.part, s.store.files, u);
    OthersKept(src, s, s', e.p, u);
  }

  lemma StatKeeps(src: Sources, s: State, e: Event)
    requires Held(src, s) && Enabled(s, e) && e.StatPart?
    requires PlainProc(s, e.p)
    ensures AllOk(src, Step(s, e))
  {
    var s', u := Step(s, e), s.procs[e.p].req.upload;
    assert UploadOk(src, s, u) && CommitOk(src, s, e.p);
    WindowStays(s, s', e.p, u);
    assert s.procs[e.p].PastCheck();
    ProcEventKeeps(src, s, s', e.p, u);
    FilesUnchanged(s.store.part, s.store.files, u);
    OthersKept(src, s, s', e.p, u);
  }

  /** While a commit or cancel is in its window, only part files and finished processes change. */
  ghost predicate WindowStep(s: State, s': State, p: nat, u: string) {
    && Local(s, s', p, u) && FilesOk(s.store.files) && FilesOk(s'.store.files)
    && p in s.procs && s.procs[p].InWindow() && !IsStream(s', p)
  }

  lemma WindowStepHasNoStreams(src: Sources, s: State, s': State, p: nat, u: string)
    requires UploadOk(src, s, u) && WindowStep(s, s', p, u)
    ensures NoStreams(s, u) && NoStreams(s', u) && WindowOk(s', u)
    ensures forall q :: IsStream(s', q) && s'.procs[q].spec.upload == u ==> StreamOk(src, s', q)
  {
    assert NoStreams(s, u);
    forall r | IsStream(s', r) ensures s'.procs[r].spec.upload != u {
      assert IsStream(s, r);
    }
  }

  lemma TruncateFrame(s: State, e: Event)
    requires FilesOk(s.store.files) && Enabled(s, e) && e.TruncatePart?
    requires s.procs[e.p].cpc.part == s.store.part(s.procs[e.p].req.path, s.procs[e.p].req.upload)
    requires Separates(s.store.part) && PlainId(s.procs[e.p].req.upload)
    ensures var s', u := Step(s, e), s.procs[e.p].req.upload;
            WindowStep(s, s', e.p, u) && FilesLocal(s.store.part, s.store.files, s'.store.files, u)
  {
    var r, f, part := s.procs[e.p].req, s.store.files, s.procs[e.p].cpc.part;
    if s.procs[e.p].cpc.size > r.total {
      SetFacts(f, part, Resize(Content(f, part), r.total));
      OwnPartOnly(s.store.part, f, Step(s, e).store.files, r.path, r.upload);
    } else {
      FilesUnchanged(s.store.part, f, r.upload);
    }
  }

  lemma TruncateKeeps(src: Sources, s: State, e: Event)
    requires Held(src, s) && Enabled(s, e) && e.TruncatePart?
    requires PlainProc(s, e.p)
    ensures FilesOk(Step(s, e).store.files) && AllOk(src, Step(s, e))
  {
    var s', p := Step(s, e), e.p;
    var u := s.procs[p].req.upload;
    assert UploadOk(src, s, u) && CommitOk(src, s, p) && s.procs[p].PastCheck();
    TruncateFrame(s, e);
    TruncatedSession(src, s, e);
    WindowStepHasNoStreams(src, s, s', p, u);
    forall q | IsCommit(s', q) && s'.procs[q].req.upload == u ensures CommitOk(src, s', q) {
      TruncatedCommit(src, s, e, q);
    }
    OthersKept(src, s, s', p, u);
  }

  lemma TruncatedCommit(src: Sources, s: State, e: Event, q: nat)
    requires Held(src, s) && Enabled(s, e) && e.TruncatePart?
    requires PlainProc(s, e.p)
    requires IsCommit(s, q) && s.procs[q].req.upload == s.procs[e.p].req.upload
    ensures CommitOk(src, Step(s, e), q)
  {
    var r, u := s.procs[e.p].req, s.procs[e.p].req.upload;
    assert UploadOk(src, s, u) && CommitOk(src, s, q) && CommitOk(src, s, e.p);
    var f, part := s.store.files, s.procs[e.p].cpc.part;
    assert s.procs[e.p].PastCheck();
    if s.procs[e.p].cpc.size > r.total {
      SetFacts(f, part, Resize(Content(f, part), r.total));
      ResizeKeepsAgreement(Content(f, part), SourceOf(src, u), r.total, 0, r.total);
    }
  }

  lemma TruncatedSession(src: Sources, s: State, e: Event)
    requires Held(src, s) && Enabled(s, e) && e.TruncatePart?
    requires PlainProc(s, e.p)
    ensures SessionOk(src, Step(s, e), s.procs[e.p].req.upload)
  {
    var s', p := Step(s, e), e.p;
    var r, u, part := s.procs[p].req, s.procs[p].req.upload, s.procs[p].cpc.part;
    assert UploadOk(src, s, u) && CommitOk(src, s, p) && s.procs[p].PastCheck();
    TruncateFrame(s, e);
    if s.procs[p].cpc.size <= r.total {
      ProcEventKeepsSession(src, s, s', p, u);
    } else if u in s.store.chunks {
      var sess := s.store.chunks[u];
      var d := Content(s.store.files, part);
      SetFacts(s.store.files, part, Resize(d, r.total));
      forall i | i in sess.parts
        ensures Agree(Resize(d, r.total), SourceOf(src, u), ChunkStart(sess.chunk, i),
                      ChunkEnd(sess.total, sess.chunk, i))
      {
        ResizeKeepsAgreement(d, SourceOf(src, u), r.total, ChunkStart(sess.chunk, i),
                             ChunkEnd(sess.total, sess.chunk, i));
      }
    }
  }

  lemma RenameFrame(s: State, e: Event)
    requires FilesOk(s.store.files) && Enabled(s, e) && e.RenamePart?
    requires s.procs[e.p].cpc.part == s.store.part(s.procs[e.p].req.path, s.procs[e.p].req.upload)
    requires Separates(s.store.part) && PlainId(s.procs[e.p].req.upload) && Aside(s.store.part, s.procs[e.p].req.path)
    ensures var s', u := Step(s, e), s.procs[e.p].req.upload;
            WindowStep(s, s', e.p, u) && FilesLocal(s.store.part, s.store.files, s'.store.files, u)
  {
    var r := s.procs[e.p].req;
    RenameFacts(s.store.files, s.procs[e.p].cpc.part, r.path);
    OwnPartAndTarget(s.store.part, s.store.files, Step(s, e).store.files, r.path, r.upload, r.path);
  }

  lemma RenameKeeps(src: Sources, s: State, e: Event)
    requires Held(src, s) && Enabled(s, e) && e.RenamePart?
    requires PlainProc(s, e.p) && Aside(s.store.part, s.procs[e.p].req.path)
    ensures FilesOk(Step(s, e).store.files) && AllOk(src, Step(s, e))
  {
    var s', p := Step(s, e), e.p;
    var r := s.procs[p].req;
    var u, part := r.upload, s.procs[p].cpc.part;
    assert UploadOk(src, s, u) && CommitOk(src, s, p) && s.procs[p].PastCheck();
    RenameFrame(s, e);
    WindowStepHasNoStreams(src, s, s', p, u);
    assert IsMoved(s', p, u);
    forall q | IsCommit(s', q) && s'.procs[q].req.upload == u ensures CommitOk(src, s', q) {
      RenamedCommit(src, s, e, q);
    }
    OthersKept(src, s, s', p, u);
  }

  lemma RenamedCommit(src: Sources, s: State, e: Event, q: nat)
    requires Held(src, s) && Enabled(s, e) && e.RenamePart?
    requires PlainProc(s, e.p) && Aside(s.store.part, s.procs[e.p].req.path)
    requires IsCommit(s, q) && s.procs[q].req.upload == s.procs[e.p].req.upload
    ensures CommitOk(src, Step(s, e), q)
  {
    assert UploadOk(src, s, s.procs[q].req.upload) && CommitOk(src, s, q) && CommitOk(src, s, e.p);
    assert s.procs[e.p].PastCheck();
    RenameFacts(s.store.files, s.procs[e.p].cpc.part, s.procs[e.p].req.path);
  }

  lemma FinishKeeps(src: Sources, s: State, e: Event)
    requires Held(src, s) && Enabled(s, e) && e.FinishCommit?
    requires PlainProc(s, e.p)
    ensures FilesOk(Step(s, e).store.files) && AllOk(src, Step(s, e))
  {
    var s', p := Step(s, e), e.p;
    var u := s.procs[p].req.upload;
    assert UploadOk(src, s, u);
    WindowStepHasNoStreams(src, s, s', p, u);
    forall q | IsCommit(s', q) && s'.procs[q].req.upload == u ensures CommitOk(src, s', q) {
      assert IsCommit(s, q) && CommitOk(src, s, q);
    }
    OthersKept(src, s, s', p, u);
  }

  lemma CancelSessionKeeps(src: Sources, s: State, e: Event)
    requires Held(src, s) && Enabled(s, e) && e.CancelSession?
    requires PlainProc(s, e.p)
    ensures FilesOk(Step(s, e).store.files) && AllOk(src, Step(s, e))
  {
    var s', p := Step(s, e), e.p;
    var u := s.procs[p].id;
    assert UploadOk(src, s, u);
    RemoveFacts(s.store.files, s.store.chunks[u].temp.value);
    WindowStepHasNoStreams(src, s, s', p, u);
    forall q | IsCommit(s', q) && s'.procs[q].req.upload == u ensures CommitOk(src, s', q) {
      assert IsCommit(s, q) && CommitOk(src, s, q);
    }
    OthersKept(src, s, s', p, u);
  }

  lemma UnlinkFrame(s: State, e: Event)
    requires FilesOk(s.store.files) && Enabled(s, e) && e.UnlinkPart?
    requires Separates(s.store.part) && PlainId(s.procs[e.p].id)
    ensures var s', u := Step(s, e), s.procs[e.p].id;
            WindowStep(s, s', e.p, u) && FilesLocal(s.store.part, s.store.files, s'.store.files, u)
  {
    var Cancel(id, path, _, _) := s.procs[e.p];
    RemoveFacts(s.store.files, s.store.part(path, id));
    FilesUnchanged(s.store.part, s.store.files, id);
    if path != "" {
      OwnPartOnly(s.store.part, s.store.files, Step(s, e).store.files, path, id);
    }
  }

  lemma UnlinkKeeps(src: Sources, s: State, e: Event)
    requires Held(src, s) && Enabled(s, e) && e.UnlinkPart?
    requires PlainProc(s, e.p)
    ensures FilesOk(Step(s, e).store.files) && AllOk(src, Step(s, e))
  {
    var s', p := Step(s, e), e.p;
    var u := s.procs[p].id;
    assert UploadOk(src, s, u) && u !in s.store.chunks;
    UnlinkFrame(s, e);
    WindowStepHasNoStreams(src, s, s', p, u);
    forall q | IsCommit(s', q) && s'.procs[q].req.upload == u ensures CommitOk(src, s', q) {
      assert IsCommit(s, q) && CommitOk(src, s, q);
    }
    OthersKept(src, s, s', p, u);
  }

  // ---------- the stream ----------

  /** What a stream event leaves alone: no commit or cancel of the upload is in its window. */
  lemma StreamSeesNoWindow(src: Sources, s: State, p: nat)
    requires IsStream(s, p) && UploadOk(src, s, s.procs[p].spec.upload)
    ensures Quiet(s, s.procs[p].spec.upload)
    ensures forall q :: IsCommit(s, q) && s.procs[q].req.upload == s.procs[p].spec.upload ==> s.procs[q].cpc.Asked?
    ensures s.procs[p].spec.upload in s.store.chunks ==>
              s.store.chunks[s.procs[p].spec.upload].temp.value in s.store.files.names
  {
    var u := s.procs[p].spec.upload;
    forall q | q in s.procs && s.procs[q].Upload() == u ensures !s.procs[q].InWindow() {
      if s.procs[q].InWindow() && NoStreams(s, u) {
        assert false;
      }
    }
    if q :| IsMoved(s, q, u) {
      assert s.procs[q].Upload() == u && s.procs[q].InWindow();
      assert false;
    }
  }

  /** With no commit or cancel in its window, sessions and streams are all there is to an upload. */
  lemma QuietUpload(src: Sources, s: State, u: string)
    requires Quiet(s, u) && SessionOk(src, s, u)
    requires forall q :: IsStream(s, q) && s.procs[q].spec.upload == u ==> StreamOk(src, s, q)
    requires forall q :: IsCommit(s, q) && s.procs[q].req.upload == u ==> RequestOk(s.procs[q].req)
    ensures UploadOk(src, s, u)
  {
    forall q | IsCommit(s, q) && s.procs[q].req.upload == u ensures CommitOk(src, s, q) {
      assert s.procs[q].Upload() == u;
    }
    forall q | IsCancel(s, q) && s.procs[q].id == u ensures !s.procs[q].xpc.SessionMissing? {
      assert s.procs[q].Upload() == u;
    }
    forall q | q in s.procs && s.procs[q].Upload() == u ensures !s.procs[q].PastCheck() {
      assert !s.procs[q].InWindow();
    }
  }

  /** Rebuilds the invariant after a stream event, from the session and the streams of its upload. */
  lemma StreamEventKeeps(src: Sources, s: State, s': State, p: nat)
    requires Held(src, s) && IsStream(s, p) && IsStream(s', p)
    requires PlainProc(s, p)
    requires Local(s, s', p, s.procs[p].spec.upload)
    requires FilesOk(s'.store.files) && FilesLocal(s.store.part, s.store.files, s'.store.files, s.procs[p].spec.upload)
    requires SessionOk(src, s', s.procs[p].spec.upload)
    requires forall q :: IsStream(s', q) && s'.procs[q].spec.upload == s.procs[p].spec.upload ==> StreamOk(src, s', q)
    ensures AllOk(src, s')
  {
    var u := s.procs[p].spec.upload;
    assert UploadOk(src, s, u);
    StreamSeesNoWindow(src, s, p);
    forall q | q in s'.procs && s'.procs[q].Upload() == u ensures !s'.procs[q].InWindow() {
      assert q != p ==> s'.procs[q] == s.procs[q];
    }
    forall q | IsCommit(s', q) && s'.procs[q].req.upload == u ensures RequestOk(s'.procs[q].req) {
      assert IsCommit(s, q) && CommitOk(src, s, q);
    }
    QuietUpload(src, s', u);
    OthersKept(src, s, s', p, u);
  }

  lemma EnterFacts(src: Sources, s: State, p: nat)
    requires Held(src, s) && IsStream(s, p) && Enter(s.store, s.procs[p].spec).1.Success?
    requires GoodStream(s, p)
    ensures var spec := s.procs[p].spec;
      var u := spec.upload;
      var (st, r) := Enter(s.store, spec);
      && u in st.chunks && Fits(st.chunks[u], spec) && r.value == s.store.part(spec.path, u)
          && r.value in st.files.names
      && st.chunks[u].temp == Some(r.value)
      && FilesOk(st.files) && FilesLocal(s.store.part, s.store.files, st.files, u)
      && (u in s.store.chunks ==> st == s.store)
      && (u !in s.store.chunks ==> st.chunks == s.store.chunks[u := st.chunks[u]] && st.chunks[u].parts == {})
  {
    var spec := s.procs[p].spec;
    var u := spec.upload;
    assert UploadOk(src, s, u) && GoodSpec(spec);
    StreamSeesNoWindow(src, s, p);
    if u !in s.store.chunks {
      var part := s.store.part(spec.path, u);
      CreateFacts(s.store.files, part);
      var f := Create(s.store.files, part);
      SetFacts(f, part, Resize(Content(f, part), 0));
      OwnPartOnly(s.store.part, s.store.files, CreateEmpty(s.store.files, part), spec.path, u);
    }
  }

  lemma EnterKeepsSession(src: Sources, s: State, e: Event)
    requires Held(src, s) && Enabled(s, e) && e.EnterStream?
    requires GoodStream(s, e.p)
    ensures SessionOk(src, Step(s, e), s.procs[e.p].spec.upload)
  {
    var spec := s.procs[e.p].spec;
    assert UploadOk(src, s, spec.upload) && GoodSpec(spec);
    EnterFacts(src, s, e.p);
    StreamSeesNoWindow(src, s, e.p);
  }

  lemma EnterKeepsStream(src: Sources, s: State, e: Event, q: nat)
    requires Held(src, s) && Enabled(s, e) && e.EnterStream?
    requires GoodStream(s, e.p)
    requires IsStream(s, q) && s.procs[q].spec.upload == s.procs[e.p].spec.upload
    ensures StreamOk(src, Step(s, e), q)
  {
    assert UploadOk(src, s, s.procs[q].spec.upload) && StreamOk(src, s, q);
    EnterFacts(src, s, e.p);
  }

  lemma EnterKeepsStreams(src: Sources, s: State, e: Event)
    requires Held(src, s) && Enabled(s, e) && e.EnterStream?
    requires GoodStream(s, e.p)
    ensures forall q :: IsStream(Step(s, e), q) && Step(s, e).procs[q].spec.upload == s.procs[e.p].spec.upload ==>
              StreamOk(src, Step(s, e), q)
  {
    var s', u := Step(s, e), s.procs[e.p].spec.upload;
    forall q | IsStream(s', q) && s'.procs[q].spec.upload == u ensures StreamOk(src, s', q) {
      EnterKeepsStream(src, s, e, q);
    }
  }

  lemma EnterFrame(src: Sources, s: State, e: Event)
    requires Held(src, s) && Enabled(s, e) && e.EnterStream?
    requires GoodStream(s, e.p)
    ensures var s', u := Step(s, e), s.procs[e.p].spec.upload;
      && IsStream(s', e.p) && Local(s, s', e.p, u)
      && FilesOk(s'.store.files) && FilesLocal(s.store.part, s.store.files, s'.store.files, u)
  {
    EnterFacts(src, s, e.p);
  }

  lemma EnterKeeps(src: Sources, s: State, e: Event)
    requires Held(src, s) && Enabled(s, e) && e.EnterStream?
    requires GoodStream(s, e.p)
    ensures FilesOk(Step(s, e).store.files) && AllOk(src, Step(s, e))
  {
    EnterFrame(src, s, e);
    EnterKeepsSession(src, s, e);
    EnterKeepsStreams(src, s, e);
    StreamEventKeeps(src, s, Step(s, e), e.p);
  }

  /** The parts of the invariant that concern one stream. */
  ghost predicate StreamView(src: Sources, s: State, p: nat) {
    && IsStream(s, p) && GoodSpec(s.procs[p].spec) && FilesOk(s.store.files)
    && SessionOk(src, s, s.procs[p].spec.upload) && StreamOk(src, s, p)
    && Separates(s.store.part) && PlainId(s.procs[p].spec.upload)
  }

  lemma ViewStream(src: Sources, s: State, p: nat)
    requires Held(src, s) && IsStream(s, p)
    requires GoodStream(s, p)
    ensures StreamView(src, s, p)
    ensures forall q :: IsStream(s, q) && s.procs[q].spec.upload == s.procs[p].spec.upload ==> StreamOk(src, s, q)
  {
    assert UploadOk(src, s, s.procs[p].spec.upload);
  }

  /** Opening finds the part file where the session has put it. */
  lemma OpenNext(s: State, e: Event)
    requires Enabled(s, e) && e.OpenPart? && s.procs[e.p].spc.part in s.store.files.names
    ensures var part := s.procs[e.p].spc.part;
      Step(s, e) == s.(procs := s.procs[e.p := Stream(s.procs[e.p].spec, Copying(part, s.store.files.names[part], 0))])
  {
  }

  lemma OpenedStreamOk(src: Sources, s: State, e: Event)
    requires FilesOk(s.store.files) && Enabled(s, e) && e.OpenPart? && StreamOk(src, s, e.p)
    requires s.procs[e.p].spec.expected >= 0
    ensures IsStream(Step(s, e), e.p) && StreamOk(src, Step(s, e), e.p)
  {
    OpenNext(s, e);
  }

  lemma GoodSpecExpects(spec: Spec)
    requires GoodSpec(spec)
    ensures spec.expected > 0
  {
    ChunkRange(spec.total, spec.chunk, spec.index);
  }

  lemma OpenFrame(src: Sources, s: State, e: Event)
    requires StreamView(src, s, e.p) && Enabled(s, e) && e.OpenPart?
    ensures Step(s, e) == s.(procs := Step(s, e).procs)
    ensures IsStream(Step(s, e), e.p) && Local(s, Step(s, e), e.p, s.procs[e.p].spec.upload)
    ensures StreamOk(src, Step(s, e), e.p)
  {
    OpenNext(s, e);
    GoodSpecExpects(s.procs[e.p].spec);
    OpenedStreamOk(src, s, e);
  }

  lemma SameStoreKeepsStream(src: Sources, s: State, s': State, p: nat, q: nat)
    requires s'.store == s.store && IsStream(s, q) && IsStream(s', q) && s'.procs[q] == s.procs[q]
             && StreamOk(src, s, q)
    ensures StreamOk(src, s', q)
  {
  }

  lemma OpenKeeps(src: Sources, s: State, e: Event)
    requires Held(src, s) && Enabled(s, e) && e.OpenPart?
    requires GoodStream(s, e.p)
    ensures FilesOk(Step(s, e).store.files) && AllOk(src, Step(s, e))
  {
    var s', p := Step(s, e), e.p;
    var u := s.procs[p].spec.upload;
    ViewStream(src, s, p);
    OpenFrame(src, s, e);
    ProcEventKeepsSession(src, s, s', p, u);
    forall q | IsStream(s', q) && s'.procs[q].spec.upload == u ensures StreamOk(src, s', q) {
      if q != p {
        SameStoreKeepsStream(src, s, s', p, q);
      }
    }
    FilesUnchanged(s.store.part, s.store.files, u);
    StreamEventKeeps(src, s, s', p);
  }

  /** The content of the part file after a write. */
  function Written(s: State, p: nat, piece: Bytes): Bytes
    requires IsStream(s, p) && s.procs[p].spc.Copying? && s.procs[p].spc.inode in s.store.files.data
    requires s.procs[p].spec.offset >= 0
  {
    WriteAt(s.store.files.data[s.procs[p].spc.inode], s.procs[p].spec.offset + s.procs[p].spc.written, piece)
  }

  lemma WriteFrame(src: Sources, s: State, e: Event)
    requires StreamView(src, s, e.p) && Enabled(s, e) && e.WritePiece?
    ensures PartChanges(s, Step(s, e), e.p, Written(s, e.p, e.piece)) && IsStream(Step(s, e), e.p)
    ensures FilesOk(Step(s, e).store.files)
    ensures FilesLocal(s.store.part, s.store.files, Step(s, e).store.files, s.procs[e.p].spec.upload)
  {
    var spec := s.procs[e.p].spec;
    SetFacts(s.store.files, s.procs[e.p].spc.part, Written(s, e.p, e.piece));
    OwnPartOnly(s.store.part, s.store.files, Step(s, e).store.files, spec.path, spec.upload);
  }

  /** The part file of an upload's stream changes from content d to d', and nothing else does. */
  ghost predicate PartChanges(s: State, s': State, p: nat, d': Bytes) {
    && IsStream(s, p) && s.procs[p].spc.Copying? && s.procs[p].spc.part in s.store.files.names
    && s.store.files.names[s.procs[p].spc.part] == s.procs[p].spc.inode
    && s'.store == s.store.(files := SetInode(s.store.files, s.procs[p].spc.inode, d'))
    && Local(s, s', p, s.procs[p].spec.upload)
  }

  /** Streams of one upload overwrite each other only with the same bytes. */
  lemma WriteKeepsOtherStream(src: Sources, s: State, s': State, p: nat, d': Bytes, q: nat)
    requires PartChanges(s, s', p, d') && StreamOk(src, s, p) && p != q
    requires IsStream(s, q) && s.procs[q].spec.upload == s.procs[p].spec.upload && StreamOk(src, s, q)
    requires s.procs[q].spc.Copying? ==>
      Agree(d', SourceOf(src, s.procs[p].spec.upload), s.procs[q].spec.offset,
            s.procs[q].spec.offset + s.procs[q].spc.written)
    ensures StreamOk(src, s', q)
  {
  }

  /** Any agreement the part file had survives a faithful write, and the writer's own grows. */
  lemma WriteAgreement(src: Sources, s: State, e: Event, lo: int, hi: int)
    requires Enabled(s, e) && Benign(src, s, e) && e.WritePiece?
    ensures var d, b := s.store.files.data[s.procs[e.p].spc.inode], SourceOf(src, s.procs[e.p].spec.upload);
            Agree(d, b, lo, hi) ==> Agree(Written(s, e.p, e.piece), b, lo, hi)
    ensures var d, b := s.store.files.data[s.procs[e.p].spc.inode], SourceOf(src, s.procs[e.p].spec.upload);
            var off, at := s.procs[e.p].spec.offset, s.procs[e.p].spec.offset + s.procs[e.p].spc.written;
            Agree(d, b, off, at) ==> Agree(Written(s, e.p, e.piece), b, off, at + |e.piece|)
  {
    var d, b := s.store.files.data[s.procs[e.p].spc.inode], SourceOf(src, s.procs[e.p].spec.upload);
    var off, at := s.procs[e.p].spec.offset, s.procs[e.p].spec.offset + s.procs[e.p].spc.written;
    if Agree(d, b, lo, hi) {
      WriteKeepsAgreement(d, b, at, e.piece, lo, hi);
    }
    if Agree(d, b, off, at) {
      WriteExtendsAgreement(d, b, off, at, e.piece);
    }
  }

  lemma WriterKept(src: Sources, s: State, e: Event)
    requires StreamView(src, s, e.p) && Enabled(s, e) && Benign(src, s, e) && e.WritePiece?
    ensures StreamOk(src, Step(s, e), e.p)
  {
    WriteAgreement(src, s, e, 0, 0);
    WriteFrame(src, s, e);
  }

  lemma PartChangeKeepsSession(src: Sources, s: State, s': State, p: nat, d': Bytes)
    requires PartChanges(s, s', p, d') && StreamOk(src, s, p) && SessionOk(src, s, s.procs[p].spec.upload)
    requires var sess := s.store.chunks[s.procs[p].spec.upload];
      forall i :: i in sess.parts ==>
        Agree(d', SourceOf(src, s.procs[p].spec.upload), ChunkStart(sess.chunk, i), ChunkEnd(sess.total, sess.chunk, i))
    ensures SessionOk(src, s', s.procs[p].spec.upload)
  {
    assert s.store.chunks[s.procs[p].spec.upload].temp.value == s.procs[p].spc.part;
  }

  lemma WriteKeepsSession(src: Sources, s: State, e: Event)
    requires StreamView(src, s, e.p) && Enabled(s, e) && Benign(src, s, e) && e.WritePiece?
    ensures SessionOk(src, Step(s, e), s.procs[e.p].spec.upload)
  {
    var u := s.procs[e.p].spec.upload;
    var sess, d' := s.store.chunks[u], Written(s, e.p, e.piece);
    WriteFrame(src, s, e);
    forall i | i in sess.parts
      ensures Agree(d', SourceOf(src, u), ChunkStart(sess.chunk, i), ChunkEnd(sess.total, sess.chunk, i))
    {
      WriteAgreement(src, s, e, ChunkStart(sess.chunk, i), ChunkEnd(sess.total, sess.chunk, i));
    }
    PartChangeKeepsSession(src, s, Step(s, e), e.p, d');
  }

  lemma WriteKeepsStream(src: Sources, s: State, e: Event, q: nat)
    requires StreamView(src, s, e.p) && Enabled(s, e) && Benign(src, s, e) && e.WritePiece? && q != e.p
    requires IsStream(s, q) && s.procs[q].spec.upload == s.procs[e.p].spec.upload && StreamOk(src, s, q)
    ensures StreamOk(src, Step(s, e), q)
  {
    var spec := s.procs[q].spec;
    WriteFrame(src, s, e);
    if s.procs[q].spc.Copying? {
      SameInode(src, s, e.p, q);
      WriteAgreement(src, s, e, spec.offset, spec.offset + s.procs[q].spc.written);
    }
    WriteKeepsOtherStream(src, s, Step(s, e), e.p, Written(s, e.p, e.piece), q);
  }

  /** Two streams copying for one upload write one file. */
  lemma SameInode(src: Sources, s: State, p: nat, q: nat)
    requires IsStream(s, p) && IsStream(s, q) && StreamOk(src, s, p) && StreamOk(src, s, q)
    requires s.procs[p].spc.Copying? && s.procs[q].spc.Copying? && s.procs[p].spec.upload == s.procs[q].spec.upload
    ensures s.procs[p].spc.part == s.procs[q].spc.part && s.procs[p].spc.inode == s.procs[q].spc.inode
  {
  }

  lemma WriteKeeps(src: Sources, s: State, e: Event)
    requires Held(src, s) && Enabled(s, e) && Benign(src, s, e) && e.WritePiece?
    requires GoodStream(s, e.p)
    ensures FilesOk(Step(s, e).store.files) && AllOk(src, Step(s, e))
  {
    var s', p := Step(s, e), e.p;
    var u := s.procs[p].spec.upload;
    ViewStream(src, s, p);
    WriteFrame(src, s, e);
    WriteKeepsSession(src, s, e);
    forall q | IsStream(s', q) && s'.procs[q].spec.upload == u ensures StreamOk(src, s', q) {
      if q == p {
        WriterKept(src, s, e);
      } else {
        WriteKeepsStream(src, s, e, q);
      }
    }
    StreamEventKeeps(src, s, s', p);
  }

  lemma RecordFacts(src: Sources, s: State, e: Event)
    requires StreamView(src, s, e.p) && Enabled(s, e) && e.RecordChunk?
    ensures var (sess, sess', spec) :=
        (s.store.chunks[s.procs[e.p].spec.upload], Step(s, e).store.chunks[s.procs[e.p].spec.upload],
         s.procs[e.p].spec);
      && sess' == sess.(parts := sess.parts + {spec.index}) && Fits(sess, spec)
      && Agree(Content(s.store.files, s.procs[e.p].spc.part), SourceOf(src, spec.upload),
               ChunkStart(sess.chunk, spec.index), ChunkEnd(sess.total, sess.chunk, spec.index))
    ensures Step(s, e).store.files == s.store.files && Local(s, Step(s, e), e.p, s.procs[e.p].spec.upload)
    ensures IsStream(Step(s, e), e.p)
  {
  }

  lemma RecordKeepsSession(src: Sources, s: State, e: Event)
    requires StreamView(src, s, e.p) && Enabled(s, e) && e.RecordChunk?
    ensures SessionOk(src, Step(s, e), s.procs[e.p].spec.upload)
  {
    RecordFacts(src, s, e);
  }

  lemma RecordKeepsStream(src: Sources, s: State, e: Event, q: nat)
    requires StreamView(src, s, e.p) && Enabled(s, e) && e.RecordChunk?
    requires IsStream(s, q) && s.procs[q].spec.upload == s.procs[e.p].spec.upload && StreamOk(src, s, q)
    ensures IsStream(Step(s, e), q) && StreamOk(src, Step(s, e), q)
  {
    RecordFacts(src, s, e);
  }

  lemma RecordKeeps(src: Sources, s: State, e: Event)
    requires Held(src, s) && Enabled(s, e) && e.RecordChunk?
    requires GoodStream(s, e.p)
    ensures FilesOk(Step(s, e).store.files) && AllOk(src, Step(s, e))
  {
    var s', p := Step(s, e), e.p;
    var u := s.procs[p].spec.upload;
    ViewStream(src, s, p);
    RecordFacts(src, s, e);
    RecordKeepsSession(src, s, e);
    forall q | IsStream(s', q) && s'.procs[q].spec.upload == u ensures StreamOk(src, s', q) {
      RecordKeepsStream(src, s, e, q);
    }
    FilesUnchanged(s.store.part, s.store.files, u);
    StreamEventKeeps(src, s, s', p);
  }

  // ---------- whole runs ----------

  lemma ProcFacts(src: Sources, s: State, e: Event)
    requires ContentInv(src, s)
    ensures Held(src, s)
    ensures e.p in s.procs ==> PlainProc(s, e.p)
    ensures IsStream(s, e.p) ==> GoodStream(s, e.p)
    ensures IsCommit(s, e.p) ==> Aside(s.store.part, s.procs[e.p].req.path)
  {
  }

  lemma StreamEventHeld(src: Sources, s: State, e: Event)
    requires Held(src, s) && Enabled(s, e) && Benign(src, s, e) && GoodStream(s, e.p)
    requires StreamEvent(e) || e.EndStream?
    ensures FilesOk(Step(s, e).store.files) && AllOk(src, Step(s, e))
  {
    match e
    case EnterStream(_) => EnterKeeps(src, s, e);
    case OpenPart(_) => OpenKeeps(src, s, e);
    case WritePiece(_, _) => WriteKeeps(src, s, e);
    case RecordChunk(_) => RecordKeeps(src, s, e);
    case EndStream(_) => EndKeeps(src, s, e);
  }

  lemma CommitEventHeld(src: Sources, s: State, e: Event)
    requires Held(src, s) && Enabled(s, e) && Benign(src, s, e) && CommitEvent(e) && !e.AskCommit?
    requires PlainProc(s, e.p) && Aside(s.store.part, s.procs[e.p].req.path)
    ensures FilesOk(Step(s, e).store.files) && AllOk(src, Step(s, e))
  {
    match e
    case CheckSession(_) => CheckKeeps(src, s, e);
    case StatPart(_) => StatKeeps(src, s, e);
    case TruncatePart(_) => TruncateKeeps(src, s, e);
    case RenamePart(_) => RenameKeeps(src, s, e);
    case FinishCommit(_) => FinishKeeps(src, s, e);
    case FailCommit(_) => FailKeeps(src, s, e);
  }

  lemma CancelEventHeld(src: Sources, s: State, e: Event)
    requires Held(src, s) && Enabled(s, e) && Benign(src, s, e) && CancelEvent(e) && PlainProc(s, e.p)
    ensures FilesOk(Step(s, e).store.files) && AllOk(src, Step(s, e))
  {
    match e
    case CancelSession(_) => CancelSessionKeeps(src, s, e);
    case MissSession(_) => FailKeeps(src, s, e);
    case UnlinkPart(_) => UnlinkKeeps(src, s, e);
    case FailCancel(_) => FailKeeps(src, s, e);
  }

  lemma OtherEventHeld(src: Sources, s: State, e: Event)
    requires Held(src, s) && Linked(s) && Enabled(s, e) && Benign(src, s, e) && Named(s.store.part, e)
    requires e.BeginStream? || e.AskCommit? || e.AskCancel? || ((e.AwaitCommit? || e.AwaitCancel?) && PlainProc(s, e.p))
    ensures FilesOk(Step(s, e).store.files) && AllOk(src, Step(s, e))
  {
    match e
    case BeginStream(_, _, _, _) => BeginKeeps(src, s, e);
    case AskCommit(_, _) => AskKeeps(src, s, e);
    case AskCancel(_, _, _, _, _) => AskKeeps(src, s, e);
    case AwaitCommit(_) => AwaitKeeps(src, s, e);
    case AwaitCancel(_) => AwaitKeeps(src, s, e);
  }

  /** Whose step an event is. */
  lemma EventKind(s: State, e: Event)
    requires Enabled(s, e)
    ensures StreamEvent(e) || e.EndStream? ==> IsStream(s, e.p)
    ensures CommitEvent(e) && !e.AskCommit? ==> IsCommit(s, e.p)
    ensures CancelEvent(e) || e.AwaitCommit? || e.AwaitCancel? ==> e.p in s.procs
  {
  }

  lemma EventHeld(src: Sources, s: State, e: Event)
    requires Held(src, s) && Linked(s) && Enabled(s, e) && Benign(src, s, e) && Named(s.store.part, e)
    requires e.p in s.procs ==> PlainProc(s, e.p)
    requires IsStream(s, e.p) ==> GoodStream(s, e.p)
    requires IsCommit(s, e.p) ==> Aside(s.store.part, s.procs[e.p].req.path)
    ensures FilesOk(Step(s, e).store.files) && AllOk(src, Step(s, e))
  {
    EventKind(s, e);
    if StreamEvent(e) || e.EndStream? {
      StreamEventHeld(src, s, e);
    } else if CommitEvent(e) && !e.AskCommit? {
      CommitEventHeld(src, s, e);
    } else if CancelEvent(e) {
      CancelEventHeld(src, s, e);
    } else {
      OtherEventHeld(src, s, e);
    }
  }

  lemma StepKeepsContent(src: Sources, s: State, e: Event)
    requires ContentInv(src, s) && Enabled(s, e) && Benign(src, s, e) && Named(s.store.part, e)
    ensures ContentInv(src, Step(s, e))
  {
    StepKeepsLinked(s, e);
    StepKeepsApart(s, e);
    ProcFacts(src, s, e);
    EventHeld(src, s, e);
  }

  lemma {:induction false} RunKeepsContent(src: Sources, s: State, run: seq<Event>)
    requires ContentInv(src, s) && BenignRun(src, s, run) && AllNamed(s.store.part, run)
    ensures Legal(s, run) && ContentInv(src, Run(s, run)) && Run(s, run).store.part == s.store.part
    decreases |run|
  {
    if run != [] {
      assert Named(s.store.part, run[0]);
      StepKeepsContent(src, s, run[0]);
      StepKeepsApart(s, run[0]);
      RunKeepsContent(src, Step(s, run[0]), run[1..]);
    }
  }

  lemma InitialContent(src: Sources, files: Files, part: (string, string) -> Path)
    requires FilesOk(files) && Separates(part)
    ensures ContentInv(src, InitialWith(files, part))
  {
    forall u ensures UploadOk(src, InitialWith(files, part), u) {
    }
  }

  /** When a commit renames, its target gets the source, `total` bytes of it. */
  lemma RenamedFileIsSource(src: Sources, s: State, p: nat)
    requires ContentInv(src, s) && Enabled(s, RenamePart(p))
    ensures Holds(Step(s, RenamePart(p)).store.files, s.procs[p].req.path, SourceOf(src, s.procs[p].req.upload),
                  s.procs[p].req.total)
    ensures Aside(s.store.part, s.procs[p].req.path)
  {
    var r := s.procs[p].req;
    assert UploadOk(src, s, r.upload) && CommitOk(src, s, p) && s.procs[p].PastCheck();
    RenameFacts(s.store.files, s.procs[p].cpc.part, r.path);
    FullAgreementIsEquality(Content(s.store.files, s.procs[p].cpc.part), SourceOf(src, r.upload), r.total);
  }

  /** A path holds the first `total` bytes of a source. */
  predicate Holds(f: Files, path: Path, b: Bytes, total: int) {
    path in f.names && 0 < total <= |b| && Content(f, path) == b[..total]
  }

  // ---------- a committed file is left alone ----------

  predicate RenamesTo(s: State, e: Event, path: Path)
    requires Enabled(s, e)
  {
    e.RenamePart? && s.procs[e.p].req.path == path
  }

  /** No event of the run is a commit's rename to the path. */
  predicate NeverRenamesTo(s: State, run: seq<Event>, path: Path)
    decreases |run|
  {
    run == [] ||
    (Enabled(s, run[0]) && !RenamesTo(s, run[0], path) && NeverRenamesTo(Step(s, run[0]), run[1..], path))
  }

  /** No event but a commit's rename to it changes a path that is no part file. */
  lemma TargetLeftAlone(src: Sources, s: State, e: Event, path: Path)
    requires Held(src, s) && Enabled(s, e) && Aside(s.store.part, path) && path in s.store.files.names
    requires e.p in s.procs ==> PlainProc(s, e.p)
    requires IsStream(s, e.p) ==> GoodStream(s, e.p)
    requires IsCommit(s, e.p) ==> Aside(s.store.part, s.procs[e.p].req.path)
    requires !RenamesTo(s, e, path)
    ensures SameFile(s.store.files, Step(s, e).store.files, path)
  {
    if StreamEvent(e) {
      StreamLeavesTarget(src, s, e, path);
    } else if CommitEvent(e) && !e.AskCommit? {
      CommitLeavesTarget(src, s, e, path);
    } else if CancelEvent(e) {
      CancelLeavesTarget(src, s, e, path);
    } else {
      OthersLeaveFiles(s, e);
      FilesUnchangedAt(s.store.files, path);
    }
  }

  lemma OthersLeaveFiles(s: State, e: Event)
    requires Enabled(s, e) && !StreamEvent(e) && !CancelEvent(e) && (CommitEvent(e) ==> e.AskCommit?)
    ensures Step(s, e).store == s.store
  {
  }

  lemma FilesUnchangedAt(f: Files, path: Path)
    requires FilesOk(f)
    ensures SameFile(f, f, path)
  {
  }

  lemma StreamLeavesTarget(src: Sources, s: State, e: Event, path: Path)
    requires Held(src, s) && GoodStream(s, e.p) && Enabled(s, e) && StreamEvent(e)
    requires Aside(s.store.part, path) && path in s.store.files.names
    ensures SameFile(s.store.files, Step(s, e).store.files, path)
  {
    if e.EnterStream? {
      EnterLeavesTarget(src, s, e, path);
    } else if e.OpenPart? {
      ViewStream(src, s, e.p);
      OpenNext(s, e);
    } else if e.WritePiece? {
      ViewStream(src, s, e.p);
      WriteLeavesTarget(src, s, e, path);
    }
  }

  lemma WriteLeavesTarget(src: Sources, s: State, e: Event, path: Path)
    requires StreamView(src, s, e.p) && Enabled(s, e) && e.WritePiece?
    requires Aside(s.store.part, path) && path in s.store.files.names
    ensures SameFile(s.store.files, Step(s, e).store.files, path)
  {
    SetFacts(s.store.files, s.procs[e.p].spc.part, Written(s, e.p, e.piece));
  }

  lemma CancelLeavesTarget(src: Sources, s: State, e: Event, path: Path)
    requires Held(src, s) && PlainProc(s, e.p) && Enabled(s, e) && CancelEvent(e)
    requires Aside(s.store.part, path) && path in s.store.files.names
    ensures SameFile(s.store.files, Step(s, e).store.files, path)
  {
    assert UploadOk(src, s, s.procs[e.p].Upload());
    if e.CancelSession? {
      RemoveFacts(s.store.files, s.store.chunks[s.procs[e.p].id].temp.value);
    } else if e.UnlinkPart? {
      RemoveFacts(s.store.files, s.store.part(s.procs[e.p].path, s.procs[e.p].id));
    }
  }

  lemma EnterLeavesTarget(src: Sources, s: State, e: Event, path: Path)
    requires Held(src, s) && GoodStream(s, e.p) && Enabled(s, e) && e.EnterStream?
    requires Aside(s.store.part, path) && path in s.store.files.names
    ensures SameFile(s.store.files, Step(s, e).store.files, path)
  {
    var spec := s.procs[e.p].spec;
    if spec.upload !in s.store.chunks {
      var part := s.store.part(spec.path, spec.upload);
      CreateFacts(s.store.files, part);
      var f := Create(s.store.files, part);
      SetFacts(f, part, Resize(Content(f, part), 0));
    }
  }

  lemma CommitLeavesTarget(src: Sources, s: State, e: Event, path: Path)
    requires Held(src, s) && PlainProc(s, e.p) && Enabled(s, e) && CommitEvent(e) && !e.AskCommit?
    requires Aside(s.store.part, s.procs[e.p].req.path)
    requires Aside(s.store.part, path) && path in s.store.files.names && !RenamesTo(s, e, path)
    ensures SameFile(s.store.files, Step(s, e).store.files, path)
  {
    var f, r := s.store.files, s.procs[e.p].req;
    assert UploadOk(src, s, s.procs[e.p].Upload()) && CommitOk(src, s, e.p);
    if e.TruncatePart? && s.procs[e.p].cpc.size > r.total {
      assert s.procs[e.p].PastCheck();
      SetFacts(f, s.procs[e.p].cpc.part, Resize(Content(f, s.procs[e.p].cpc.part), r.total));
    } else if e.RenamePart? {
      assert s.procs[e.p].PastCheck();
      RenameFacts(f, s.procs[e.p].cpc.part, r.path);
    }
  }

  lemma HoldsNext(src: Sources, s: State, e: Event, path: Path, b: Bytes, total: int)
    requires ContentInv(src, s) && Enabled(s, e)
    requires Aside(s.store.part, path) && !RenamesTo(s, e, path) && Holds(s.store.files, path, b, total)
    ensures Holds(Step(s, e).store.files, path, b, total)
  {
    ProcFacts(src, s, e);
    TargetLeftAlone(src, s, e, path);
  }

  lemma {:induction false} HoldsOn(src: Sources, s: State, run: seq<Event>, path: Path, b: Bytes, total: int)
    requires ContentInv(src, s) && BenignRun(src, s, run) && AllNamed(s.store.part, run) && Legal(s, run)
    requires Aside(s.store.part, path) && NeverRenamesTo(s, run, path) && Holds(s.store.files, path, b, total)
    ensures Holds(Run(s, run).store.files, path, b, total)
    decreases |run|
  {
    if run != [] {
      var e := run[0];
      assert Named(s.store.part, e);
      HoldsNext(src, s, e, path, b, total);
      StepKeepsContent(src, s, e);
      NamingStays(s, e);
      HoldsOn(src, Step(s, e), run[1..], path, b, total);
    }
  }

  // ---------- with the source's own part names ----------

  /** What a caller can see to: ids without dots and slashes, and no target that reads like a part file. */
  predicate WellNamed(run: seq<Event>) {
    forall e :: e in run ==> NamesPlainId(e) && NamesPlainTarget(e)
  }

  predicate NamesPlainId(e: Event) {
    match e
    case BeginStream(_, args, _, _) => PlainId(args.upload)
    case AskCommit(_, r) => PlainId(r.upload)
    case AskCancel(_, id, _, _, _) => PlainId(id)
    case _ => true
  }

  predicate NamesPlainTarget(e: Event) {
    e.AskCommit? ==> !PartShaped(e.request.path)
  }

  lemma WellNamedIsNamed(run: seq<Event>)
    requires WellNamed(run)
    ensures AllNamed(PartPath, run)
  {
    forall e | e in run ensures Named(PartPath, e) {
      assert NamesPlainId(e) && NamesPlainTarget(e);
      if e.AskCommit? {
        UnshapedIsAside(e.request.path);
      }
    }
  }

  /**
   Upload refinement: over every benign and well named run, from any files, a commit's rename leaves the target with
   the first `total` bytes of its source, and they stay there, past the end of the commit, until a commit renames to
   the same target again.
   */
  lemma CommittedFileIsSource(src: Sources, files: Files, run: seq<Event>, p: nat, rest: seq<Event>)
    requires FilesOk(files) && BenignRun(src, Initial(files), run) && WellNamed(run)
    requires Legal(Initial(files), run) && Enabled(Run(Initial(files), run), RenamePart(p))
    requires var renamed := Step(Run(Initial(files), run), RenamePart(p));
      && BenignRun(src, renamed, rest) && WellNamed(rest) && Legal(renamed, rest)
      && NeverRenamesTo(renamed, rest, Run(Initial(files), run).procs[p].req.path)
    ensures var r := Run(Initial(files), run).procs[p].req;
      var f := Run(Step(Run(Initial(files), run), RenamePart(p)), rest).store.files;
      && Holds(f, r.path, SourceOf(src, r.upload), r.total)
      && (r.total == |SourceOf(src, r.upload)| ==> Content(f, r.path) == SourceOf(src, r.upload))
  {
    var s := Run(Initial(files), run);
    PartPathSeparates();
    InitialContent(src, files, PartPath);
    WellNamedIsNamed(run);
    WellNamedIsNamed(rest);
    RunKeepsContent(src, Initial(files), run);
    RenamedStays(src, s, p, rest);
  }

  lemma RenamedStays(src: Sources, s: State, p: nat, rest: seq<Event>)
    requires ContentInv(src, s) && Enabled(s, RenamePart(p))
    requires var renamed := Step(s, RenamePart(p));
      && BenignRun(src, renamed, rest) && AllNamed(s.store.part, rest) && Legal(renamed, rest)
      && NeverRenamesTo(renamed, rest, s.procs[p].req.path)
    ensures Holds(Run(Step(s, RenamePart(p)), rest).store.files, s.procs[p].req.path,
                  SourceOf(src, s.procs[p].req.upload), s.procs[p].req.total)
  {
    RenamedFileIsSource(src, s, p);
    StepKeepsContent(src, s, RenamePart(p));
    StepKeepsApart(s, RenamePart(p));
    HoldsOn(src, Step(s, RenamePart(p)), rest, s.procs[p].req.path, SourceOf(src, s.procs[p].req.upload),
            s.procs[p].req.total);
  }
}
