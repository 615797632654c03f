/**
 Where upload sessions come from and what the sections on them answer, read off the session
 table and the files.
 */
module UploadSessions {
  import opened Prelude
  import opened ChunkGeometry
  import opened UploadProtocol
  import opened UploadRefinement

  // ---------- the first section of a stream ----------

  /** The two stores hold the same sessions and files. */
  predicate SameStore(a: Store, b: Store) {
    a.chunks == b.chunks && a.files == b.files
  }

  /** Every file but the one at `part` is as it was, and this one is there and empty. */
  ghost predicate OnlyEmptied(before: Files, after: Files, part: Path) {
    && part in after.names && Content(after, part) == []
    && forall p :: p != part ==>
      (p in after.names <==> p in before.names) && (p in before.names ==> Content(after, p) == Content(before, p))
  }

  /** A stream enters an unknown upload only as a first one; otherwise it fails and nothing is touched. */
  lemma UnknownNeedsFirst(st: Store, spec: Spec)
    requires spec.upload !in st.chunks
    ensures !spec.first ==> Enter(st, spec).1 == Failure(UnknownSession) && SameStore(Enter(st, spec).0, st)
    ensures spec.first ==> Enter(st, spec).1 == Success(st.part(spec.path, spec.upload))
  {
  }

  /** A first stream of an unknown upload makes its session, without chunks, and an empty part file, and no more. */
  lemma FirstMakesSession(st: Store, spec: Spec)
    requires spec.upload !in st.chunks && spec.first && FilesOk(st.files)
    ensures var part, st' := st.part(spec.path, spec.upload), Enter(st, spec).0;
      && st'.chunks.Keys == st.chunks.Keys + {spec.upload}
      && (forall u :: u in st.chunks ==> st'.chunks[u] == st.chunks[u])
      && st'.chunks[spec.upload] == Session(spec.total, spec.chunk, spec.path, spec.count, {}, Some(part))
      && OnlyEmptied(st.files, st'.files, part)
  {
    var part := st.part(spec.path, spec.upload);
    var f := Create(st.files, part);
    forall p | p != part && p in st.files.names ensures Content(Enter(st, spec).0.files, p) == Content(st.files, p) {
      assert f.names[p] != f.names[part];
    }
  }

  /** The session was made for this target, size, chunk size and count; unset fields fit all. */
  predicate Fits(s: Session, spec: Spec) {
    && (s.target == "" || s.target == spec.path) && (s.total == 0 || s.total == spec.total)
    && (s.chunk == 0 || s.chunk == spec.chunk) && (s.count == 0 || s.count == spec.count)
  }

  /** A stream of a known upload touches nothing; it enters, with the part file of the session, exactly when it fits. */
  lemma KnownMustFit(st: Store, spec: Spec)
    requires spec.upload in st.chunks
    ensures SameStore(Enter(st, spec).0, st)
    ensures var s, r := st.chunks[spec.upload], Enter(st, spec).1;
      && (r.Success? <==> Fits(s, spec))
      && (r.Success? ==> r.value == if s.temp.Some? then s.temp.value else st.part(spec.path, spec.upload))
      && (s.target != "" && s.target != spec.path ==> r == Failure(TargetMismatch))
  {
  }

  // ---------- the other sections ----------

  /** A finished chunk is added to its session, which takes over the stream's values; without one nothing changes. */
  lemma RecordsExactly(st: Store, spec: Spec, part: Path)
    ensures var (st', err) := Record(st, spec, part);
      && st'.files == st.files
      && (spec.upload !in st.chunks ==> err == Some(UnknownSession) && st'.chunks == st.chunks)
      && (spec.upload in st.chunks ==>
            && err == None && st'.chunks.Keys == st.chunks.Keys
            && (forall u :: u in st.chunks && u != spec.upload ==> st'.chunks[u] == st.chunks[u])
            && var s, s' := st.chunks[spec.upload], st'.chunks[spec.upload];
            && (forall k :: k in s'.parts <==> k in s.parts || k == spec.index)
            && s'.total == spec.total && s'.chunk == spec.chunk && s'.count == spec.count && s'.temp == Some(part)
            && s'.target == if s.target == "" then spec.path else s.target)
  {
  }

  /** A commit needs an id, a path that can be a file, and the true geometry of the file; nothing else passes. */
  lemma CommitAcceptedExactly(r: CommitRequest)
    ensures CommitAccepted(r) <==>
            && r.upload != "" && r.path != "" && r.path != "/" && r.path != "."
            && r.total > 0 && 0 < ChunkOrDefault(r.chunk) <= 134_217_728
            && r.total + ChunkOrDefault(r.chunk) - 1 <= MAX_INT64
            && r.count == ChunkCount(r.total, ChunkOrDefault(r.chunk))
  {
    CommitCountIsExact(r.total, r.chunk, r.count);
  }

  predicate FitsCommit(s: Session, r: CommitRequest) {
    && (s.target == "" || s.target == r.path) && (s.total == 0 || s.total == r.total)
    && (s.chunk == 0 || s.chunk == r.chunk) && (s.count == 0 || s.count == r.count)
  }

  /** A commit passes its checks exactly when a session fits it, all chunks are recorded and a part file is known. */
  lemma CommitPassesExactly(st: Store, r: CommitRequest)
    ensures var u, result := r.upload, CheckCommit(st, r);
      && (u !in st.chunks ==> result == Failure(UnknownSession))
      && (u in st.chunks ==>
            var s := st.chunks[u];
            && (result.Success? <==> FitsCommit(s, r) && |s.parts| == r.count && s.temp.Some?)
            && (result.Success? ==> Some(result.value) == s.temp)
            && (s.target != "" && s.target != r.path ==> result == Failure(TargetMismatch))
            && (FitsCommit(s, r) && |s.parts| != r.count ==> result == Failure(Incomplete)))
  {
  }

  /** A cancel for another target is refused and touches nothing; any other removes the session and its part file. */
  lemma CancelRemovesExactly(st: Store, u: string, path: string)
    requires u in st.chunks
    ensures var s, (st', r) := st.chunks[u], RemoveSession(st, u, path);
      && (path != "" && s.target != "" && path != s.target ==> r == Failure(TargetMismatch) && SameStore(st', st))
      && (path == "" || s.target == "" || path == s.target ==>
            && r == Success(s.temp) && u !in st'.chunks
            && (forall v :: v != u ==> (v in st'.chunks <==> v in st.chunks))
            && (forall v :: v in st'.chunks ==> st'.chunks[v] == st.chunks[v])
            && (forall p :: p in st'.files.names <==> p in st.files.names && Some(p) != s.temp)
            && (forall p :: p in st'.files.names ==> Content(st'.files, p) == Content(st.files, p)))
  {
  }

  // ---------- over runs ----------

  /** The event enters the first stream of an upload that has no session. */
  predicate EntersFirst(s: State, e: Event, u: string) {
    && e.EnterStream? && IsStream(s, e.p)
    && s.procs[e.p].spec.upload == u && s.procs[e.p].spec.first && u !in s.store.chunks
  }

  /** The upload has a session from here to the end of the run. */
  predicate HasThroughout(s: State, run: seq<Event>, u: string)
    requires Legal(s, run)
    decreases |run|
  {
    u in s.store.chunks && (run == [] || HasThroughout(Step(s, run[0]), run[1..], u))
  }

  /** Some event of the run enters a first stream of the upload, which has a session from then on. */
  predicate MadeByFirst(s: State, run: seq<Event>, u: string)
    requires Legal(s, run)
    decreases |run|
  {
    run != [] &&
    ((EntersFirst(s, run[0], u) && HasThroughout(Step(s, run[0]), run[1..], u))
     || MadeByFirst(Step(s, run[0]), run[1..], u))
  }

  lemma NewSessionIsFirst(s: State, e: Event, u: string)
    requires Enabled(s, e) && u in Step(s, e).store.chunks && u !in s.store.chunks
    ensures EntersFirst(s, e, u)
  {
  }

  lemma {:induction false} SessionWasMade(s: State, run: seq<Event>, u: string)
    requires Legal(s, run) && u in Run(s, run).store.chunks
    ensures HasThroughout(s, run, u) || MadeByFirst(s, run, u)
    decreases |run|
  {
    if run != [] {
      SessionWasMade(Step(s, run[0]), run[1..], u);
      if u !in s.store.chunks && u in Step(s, run[0]).store.chunks {
        NewSessionIsFirst(s, run[0], u);
      }
    }
  }

  /** Every session in the table was made by a first stream of its upload. */
  lemma SessionsComeFromFirst(files: Files, run: seq<Event>, u: string)
    requires Legal(Initial(files), run) && u in Run(Initial(files), run).store.chunks
    ensures MadeByFirst(Initial(files), run, u)
  {
    SessionWasMade(Initial(files), run, u);
  }

  /** The file at the path is shorter after the event, or gone. */
  predicate Loses(s: State, e: Event, path: Path)
    requires Enabled(s, e)
  {
    && path in s.store.files.names
    && (path !in Step(s, e).store.files.names
        || |Content(Step(s, e).store.files, path)| < |Content(s.store.files, path)|)
  }

  /** Of the steps of streams, only entering a first one empties a file: the part file of its upload. */
  lemma OnlyFirstEmpties(s: State, e: Event, path: Path)
    requires Enabled(s, e) && FilesOk(s.store.files) && Loses(s, e, path)
    requires e.BeginStream? || e.EnterStream? || e.OpenPart? || e.WritePiece? || e.RecordChunk? || e.EndStream?
    ensures e.EnterStream? && EntersFirst(s, e, s.procs[e.p].spec.upload)
    ensures path == s.store.part(s.procs[e.p].spec.path, s.procs[e.p].spec.upload)
  {
    if e.EnterStream? {
      var spec := s.procs[e.p].spec;
      if spec.upload in s.store.chunks {
        KnownMustFit(s.store, spec);
      } else if spec.first {
        FirstMakesSession(s.store, spec);
      } else {
        UnknownNeedsFirst(s.store, spec);
      }
    }
  }

  /** What a stream is, it was asked to be. */
  predicate AskedFor(run: seq<Event>, spec: Spec) {
    exists e :: e in run && e.BeginStream? && ParseStreamSpec(e.args) == Success(spec)
  }

  lemma {:induction false} StreamWasAskedFor(s: State, run: seq<Event>, p: nat)
    requires Legal(s, run) && IsStream(Run(s, run), p)
    ensures (IsStream(s, p) && s.procs[p].spec == Run(s, run).procs[p].spec) || AskedFor(run, Run(s, run).procs[p].spec)
    decreases |run|
  {
    if run != [] {
      var e, spec := run[0], Run(s, run).procs[p].spec;
      StreamWasAskedFor(Step(s, e), run[1..], p);
      if AskedFor(run[1..], spec) {
        var b :| b in run[1..] && b.BeginStream? && ParseStreamSpec(b.args) == Success(spec);
        assert b in run;
      } else {
        StreamCameFrom(s, e, p);
        assert e in run;
      }
    }
  }

  lemma StreamCameFrom(s: State, e: Event, p: nat)
    requires Enabled(s, e) && IsStream(Step(s, e), p)
    ensures var spec := Step(s, e).procs[p].spec;
      (IsStream(s, p) && s.procs[p].spec == spec) || (e.BeginStream? && ParseStreamSpec(e.args) == Success(spec))
  {
  }

  /** Some stream of the upload was asked for as a first one. */
  predicate FirstAskedFor(run: seq<Event>, u: string) {
    exists e :: e in run && e.BeginStream? && e.args.upload == u && e.args.first
  }

  lemma {:induction false} FirstWasAskedFor(s: State, run: seq<Event>, u: string)
    requires Legal(s, run) && MadeByFirst(s, run, u)
    ensures FirstAskedFor(run, u) || exists p :: IsStream(s, p) && s.procs[p].spec.upload == u && s.procs[p].spec.first
    decreases |run|
  {
    var e := run[0];
    if !EntersFirst(s, e, u) {
      FirstWasAskedFor(Step(s, e), run[1..], u);
      if FirstAskedFor(run[1..], u) {
        var b :| b in run[1..] && b.BeginStream? && b.args.upload == u && b.args.first;
        assert b in run;
      } else {
        var p :| IsStream(Step(s, e), p) && Step(s, e).procs[p].spec.upload == u && Step(s, e).procs[p].spec.first;
        StreamCameFrom(s, e, p);
        if !IsStream(s, p) || s.procs[p].spec != Step(s, e).procs[p].spec {
          ParseAcceptsExactly(e.args);
          assert e in run;
        }
      }
    }
  }

  /** So without a request that says `first` an upload never has a session. */
  lemma SessionNeedsFirstRequest(files: Files, run: seq<Event>, u: string)
    requires Legal(Initial(files), run) && u in Run(Initial(files), run).store.chunks
    ensures FirstAskedFor(run, u)
  {
    SessionsComeFromFirst(files, run, u);
    FirstWasAskedFor(Initial(files), run, u);
  }
}
