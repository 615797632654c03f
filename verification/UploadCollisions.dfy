/**
 Uploads whose names collide.

 `UploadRefinement.CommittedFileIsSource` and `UploadCancel.CancelledUploadStaysAway` ask for plain ids and for targets
 that do not read like part files.  Wherever two uploads share a part file, or one's target is the other's part file,
 benign runs commit wrong bytes and undo cancels.  The source's own names have such collisions, so none of the
 conditions of the two theorems can be left out.
 */
module UploadCollisions {
  import opened Prelude
  import opened ChunkGeometry
  import opened UploadProtocol
  import opened UploadRefinement
  import opened UploadPitfalls
  import opened PartNames
  import C = UploadCancel
  import L = UploadLifecycle

  // ---------- two uploads ----------

  /** Two uploads with different sources. */
  predicate TwoJobs(c: Setting, j: Job, j': Job) {
    && JobOk(c, j) && JobOk(c, j') && j.upload != j'.upload && j.part != j.target && j'.part != j'.target
    && j.upload in c.src && j'.upload in c.src && c.src[j.upload] != c.src[j'.upload]
  }

  function TwoSessions(c: Setting, j: Job, j': Job, files: Files): Store {
    Store(map[j.upload := Sess(j, 2, {0}), j'.upload := Sess(j', 2, {0})], files, c.names)
  }

  /** The second upload's first stream, into the part file of the first upload. */
  lemma SharedUploaded(c: Setting, j: Job, j': Job)
    requires TwoJobs(c, j, j') && j.part == j'.part
    ensures var store := OneSession(c, j, Sess(j, 2, {0}), OneFile(j.part, c.src[j.upload]));
      && CanEnter(j', WHOLE, store)
      && Uploaded(c, j', WHOLE, store) == TwoSessions(c, j, j', OneFile(j.part, c.src[j'.upload]))
  {
    var d := c.src[j'.upload];
    var store := OneSession(c, j, Sess(j, 2, {0}), OneFile(j.part, c.src[j.upload]));
    assert Resize(c.src[j.upload], 0) == [];
    assert CreateEmpty(store.files, j.part) == OneFile(j.part, []);
    assert Enter(store, SpecOf(j', WHOLE)).0.files == OneFile(j.part, []);
    WholePiece(c, j');
    assert WriteAt([], 0, d) == d;
    assert Filled(c, j', WHOLE, OneFile(j.part, [])) == OneFile(j.part, d);
    assert {} + {0} == {0};
  }

  lemma SharedStreams(c: Setting, j: Job, j': Job)
    requires TwoJobs(c, j, j') && j.part == j'.part
    ensures Reach(c, State(Idle({0, 1, 2, 3}, 4), TwoSessions(c, j, j', OneFile(j.part, c.src[j'.upload])), map[]))
  {
    FirstStream(c, j, 2);
    WholePiece(c, j);
    SharedUploaded(c, j, j');
    SoloStream(c, j', WHOLE, Idle({0, 1}, 2), {0, 1}, 2,
               OneSession(c, j, Sess(j, 2, {0}), OneFile(j.part, c.src[j.upload])), 2);
    assert {0, 1} + {2} + {2 + 1} == {0, 1, 2, 3};
  }

  /** Wherever two uploads share a part file, a benign run commits the bytes of one to the target of the other. */
  lemma SharedPartFileSpoils(c: Setting, j: Job, j': Job)
    requires TwoJobs(c, j, j') && j.part == j'.part
    ensures Spoils(c)
  {
    SharedStreams(c, j, j');
    var store := TwoSessions(c, j, j', OneFile(j.part, c.src[j'.upload]));
    SoloCommit(c, j, {0, 1, 2, 3}, 4, store, 3, 2);
    WrongBytes(c, j, Idle({0, 1, 2, 3}, 4), store, 3, 2);
    RunTo(c, State(Idle({0, 1, 2, 3}, 4), store, map[3 := Commit(Request(j, 2), Sized(j.part))]), 3);
  }

  /** Two part files, in inodes 0 and 1. */
  function TwoParts(c: Setting, j: Job, j': Job): Files
    requires j.upload in c.src && j'.upload in c.src
  {
    Files(map[j.part := 0, j'.part := 1], map[0 := c.src[j.upload], 1 := c.src[j'.upload]], 2)
  }

  lemma SecondOwnUploaded(c: Setting, j: Job, j': Job)
    requires TwoJobs(c, j, j') && j.part != j'.part
    ensures var store := OneSession(c, j, Sess(j, 2, {0}), OneFile(j.part, c.src[j.upload]));
      CanEnter(j', WHOLE, store) && Uploaded(c, j', WHOLE, store) == TwoSessions(c, j, j', TwoParts(c, j, j'))
  {
    var d := c.src[j'.upload];
    var store := OneSession(c, j, Sess(j, 2, {0}), OneFile(j.part, c.src[j.upload]));
    var empty := Files(map[j.part := 0, j'.part := 1], map[0 := c.src[j.upload], 1 := []], 2);
    assert Resize([], 0) == [];
    assert Create(store.files, j'.part) == empty;
    assert CreateEmpty(store.files, j'.part) == empty;
    assert Enter(store, SpecOf(j', WHOLE)).0.files == empty;
    WholePiece(c, j');
    assert WriteAt([], 0, d) == d;
    assert Filled(c, j', WHOLE, empty) == TwoParts(c, j, j');
    assert {} + {0} == {0};
  }

  lemma SeparateStreams(c: Setting, j: Job, j': Job)
    requires TwoJobs(c, j, j') && j.part != j'.part
    ensures Reach(c, State(Idle({0, 1, 2, 3}, 4), TwoSessions(c, j, j', TwoParts(c, j, j')), map[]))
  {
    FirstStream(c, j, 2);
    WholePiece(c, j);
    SecondOwnUploaded(c, j, j');
    SoloStream(c, j', WHOLE, Idle({0, 1}, 2), {0, 1}, 2,
               OneSession(c, j, Sess(j, 2, {0}), OneFile(j.part, c.src[j.upload])), 2);
    assert {0, 1} + {2} + {2 + 1} == {0, 1, 2, 3};
  }

  /** The first upload's bytes under the second upload's part name. */
  function Overwritten(c: Setting, j: Job, j': Job): Files
    requires j.upload in c.src && j'.upload in c.src
  {
    Files(map[j'.part := 0], map[0 := c.src[j.upload], 1 := c.src[j'.upload]], 2)
  }

  lemma RenamedOver(c: Setting, j: Job, j': Job)
    requires TwoJobs(c, j, j') && j.part != j'.part && j.target == j'.part
    ensures Rename(TwoParts(c, j, j'), j.part, j.target) == Overwritten(c, j, j')
  {
    var f := TwoParts(c, j, j');
    assert (f.names - {j.part})[j.target := 0] == map[j'.part := 0];
  }

  lemma FirstCommitRenames(c: Setting, j: Job, j': Job)
    requires TwoJobs(c, j, j') && j.part != j'.part && j.target == j'.part
    ensures Reach(c, State(Idle({0, 1, 2, 3}, 4), TwoSessions(c, j, j', Overwritten(c, j, j')), map[3 := Done(j)]))
  {
    SeparateStreams(c, j, j');
    RenamedOver(c, j, j');
    SoloRename(c, j, {0, 1, 2, 3}, 4, TwoSessions(c, j, j', TwoParts(c, j, j')), Overwritten(c, j, j'), 3, 2);
  }

  /** The first commit ends; its session is gone, and the second upload's file is not its own. */
  lemma FirstCommitEnds(c: Setting, j: Job, j': Job)
    requires TwoJobs(c, j, j') && j.part != j'.part && j.target == j'.part
    ensures Reach(c, State(Idle({0, 1, 2, 3}, 4), OneSession(c, j', Sess(j', 2, {0}), Overwritten(c, j, j')), map[]))
  {
    FirstCommitRenames(c, j, j');
    var life := Idle({0, 1, 2, 3}, 4);
    var s := State(life, TwoSessions(c, j, j', Overwritten(c, j, j')), map[3 := Done(j)]);
    assert s.procs - {3} == map[];
    assert s.store.chunks - {j.upload} == map[j'.upload := Sess(j', 2, {0})];
    Go(c, s, FinishCommit(3), State(life, OneSession(c, j', Sess(j', 2, {0}), Overwritten(c, j, j')), map[]));
  }

  /** Wherever a target is another upload's part file, a benign run makes that upload commit the bytes of the first. */
  lemma TargetAsPartFileSpoils(c: Setting, j: Job, j': Job)
    requires TwoJobs(c, j, j') && j.part != j'.part && j.target == j'.part
    ensures Spoils(c)
  {
    FirstCommitEnds(c, j, j');
    var store := OneSession(c, j', Sess(j', 2, {0}), Overwritten(c, j, j'));
    SoloCommit(c, j', {0, 1, 2, 3}, 4, store, 4, 2);
    WrongBytes(c, j', Idle({0, 1, 2, 3}, 4), store, 4, 2);
    RunTo(c, State(Idle({0, 1, 2, 3}, 4), store, map[4 := Commit(Request(j', 2), Sized(j'.part))]), 4);
  }

  // ---------- a cancel undone ----------

  function Cancelling(j: Job, pc: CancelPc): Proc {
    Cancel(j.upload, j.target, 1, pc)
  }

  /** Life after a cancel of the upload. */
  function Tombstone(u: string, closed: set<nat>, n: nat): L.State {
    L.State(L.Core(map[u := L.Entry(0, n, true, 1, map[])], closed + {n}, n + 1), map[], map[], 1)
  }

  lemma LifeCancels(u: string, closed: set<nat>, n: nat)
    requires u != ""
    ensures L.Enabled(Idle(closed, n), L.EvCancel(u, 1, 1))
    ensures L.Step(Idle(closed, n), L.EvCancel(u, 1, 1)) == Tombstone(u, closed, n)
  {
    var core := L.Core(map[], closed, n);
    assert L.Pruned(core, 1).table == map[];
    var c1 := L.Ensured(L.Pruned(core, 1), u);
    assert c1.table == map[u := L.Entry(0, n, false, 0, map[])];
  }

  lemma CancelAsks(c: Setting, j: Job, store: Store)
    requires JobOk(c, j) && Reach(c, State(Idle({0, 1}, 2), store, map[]))
    ensures Reach(c, State(Tombstone(j.upload, {0, 1}, 2), store, map[2 := Cancelling(j, Announced)]))
  {
    LifeCancels(j.upload, {0, 1}, 2);
    Go(c, State(Idle({0, 1}, 2), store, map[]), AskCancel(2, j.upload, j.target, 1, 1),
       State(Tombstone(j.upload, {0, 1}, 2), store, map[2 := Cancelling(j, Announced)]));
  }

  lemma CancelWaits(c: Setting, j: Job, store: Store)
    requires JobOk(c, j) && Reach(c, State(Idle({0, 1}, 2), store, map[]))
    ensures Reach(c, State(Tombstone(j.upload, {0, 1}, 2), store, map[2 := Cancelling(j, Quiesced)]))
  {
    CancelAsks(c, j, store);
    var life := Tombstone(j.upload, {0, 1}, 2);
    var s := State(life, store, map[2 := Cancelling(j, Announced)]);
    NothingToWaitFor(j.upload);
    AwaitStep(s, j);
    Go(c, s, AwaitCancel(2), State(life, store, map[2 := Cancelling(j, Quiesced)]));
  }

  lemma NothingToWaitFor(u: string)
    ensures var life := Tombstone(u, {0, 1}, 2);
      L.Wait(life.core, u).1.None? && L.Step(life, L.EvWait(2, u)) == life
  {
  }

  lemma AwaitStep(s: State, j: Job)
    requires s.procs == map[2 := Cancelling(j, Announced)] && s.life.waiters == map[]
    requires L.Wait(s.life.core, j.upload).1.None? && L.Step(s.life, L.EvWait(2, j.upload)) == s.life
    ensures Enabled(s, AwaitCancel(2)) && Step(s, AwaitCancel(2)) == s.(procs := map[2 := Cancelling(j, Quiesced)])
  {
    SamePlace(2, Cancelling(j, Announced), Cancelling(j, Quiesced));
  }

  /** The files after the part file is removed. */
  function Unlinked(d: Bytes): Files {
    Files(map[], map[0 := d], 1)
  }

  lemma CancelRemoves(c: Setting, j: Job)
    requires JobOk(c, j) && j.upload in c.src
    ensures Reach(c, State(Tombstone(j.upload, {0, 1}, 2), Store(map[], Unlinked(c.src[j.upload]), c.names),
                           map[2 := Cancelling(j, Removed(Some(j.part)))]))
  {
    var life, store := Tombstone(j.upload, {0, 1}, 2),
        OneSession(c, j, Sess(j, 2, {0}), OneFile(j.part, c.src[j.upload]));
    FirstStream(c, j, 2);
    WholePiece(c, j);
    CancelWaits(c, j, store);
    assert store.chunks - {j.upload} == map[];
    assert Remove(store.files, j.part) == Unlinked(c.src[j.upload]);
    SamePlace(2, Cancelling(j, Quiesced), Cancelling(j, Removed(Some(j.part))));
    Go(c, State(life, store, map[2 := Cancelling(j, Quiesced)]), CancelSession(2),
       State(life, Store(map[], Unlinked(c.src[j.upload]), c.names), map[2 := Cancelling(j, Removed(Some(j.part)))]));
  }

  /** Life with the tombstone and a stream of another upload. */
  function Beside(u: string, v: string): L.State {
    L.State(L.Core(map[u := L.Entry(0, 2, true, 1, map[]), v := L.Entry(1, 4, false, 0, map[])], {0, 1, 2, 3}, 5),
            map[3 := L.Handle(v, "")], map[], 1)
  }

  lemma LifeBeside(u: string, v: string)
    requires u != v && v != ""
    ensures var s, e := Tombstone(u, {0, 1}, 2), L.EvBegin(3, v, "", 1);
      L.Enabled(s, e) && L.Step(s, e) == Beside(u, v)
  {
    var core := Tombstone(u, {0, 1}, 2).core;
    assert {0, 1} + {2} + {3} == {0, 1, 2, 3};
    assert L.Pruned(core, 1).table == core.table;
    var c1 := L.Ensured(core, v);
    assert c1.table == map[u := L.Entry(0, 2, true, 1, map[]), v := L.Entry(0, 3, false, 0, map[])];
    assert L.Activated(c1, v, "", 3).table == Beside(u, v).core.table;
  }

  lemma OtherBegins(c: Setting, j: Job, j': Job)
    requires TwoJobs(c, j, j')
    ensures Reach(c, State(Beside(j.upload, j'.upload), Store(map[], Unlinked(c.src[j.upload]), c.names),
                           map[2 := Cancelling(j, Removed(Some(j.part))), 3 := Fresh(j', Begun)]))
  {
    CancelRemoves(c, j);
    ArgsParse(c, j', WHOLE);
    LifeBeside(j.upload, j'.upload);
    var removed := Cancelling(j, Removed(Some(j.part)));
    var store := Store(map[], Unlinked(c.src[j.upload]), c.names);
    var s := State(Tombstone(j.upload, {0, 1}, 2), store, map[2 := removed]);
    assert s.procs[3 := Fresh(j', Begun)] == map[2 := removed, 3 := Fresh(j', Begun)];
    Go(c, s, BeginStream(3, Args(j', WHOLE), "", 1),
       State(Beside(j.upload, j'.upload), store, map[2 := removed, 3 := Fresh(j', Begun)]));
  }

  /** The other upload's first stream makes the file that the cancel removed. */
  lemma OtherEnters(c: Setting, j: Job, j': Job)
    requires TwoJobs(c, j, j') && j.part == j'.part
    ensures exists s :: Reach(c, s) && s.life == Beside(j.upload, j'.upload) && j.part in s.store.files.names
                        && s.procs == map[2 := Cancelling(j, Removed(Some(j.part))), 3 := Fresh(j', Entered(j.part))]
  {
    OtherBegins(c, j, j');
    var removed, life := Cancelling(j, Removed(Some(j.part))), Beside(j.upload, j'.upload);
    var store := Store(map[], Unlinked(c.src[j.upload]), c.names);
    var spec := SpecOf(j', WHOLE);
    var entered := Enter(store, spec).0;
    assert Enter(store, spec).1 == Success(j.part);
    Second(removed, Fresh(j', Begun), Fresh(j', Entered(j.part)));
    EnterGoes(c, State(life, store, map[2 := removed, 3 := Fresh(j', Begun)]), 3, spec, entered, j.part);
    assert Reach(c, State(life, entered, map[2 := removed, 3 := Fresh(j', Entered(j.part))]));
  }

  /** Process p is a finished cancel inside its fifteen minutes, and something of its upload is there. */
  ghost predicate CancelUndone(s: State, p: nat) {
    IsCancel(s, p) && s.procs[p].xpc.Removed? && C.InTime(s, p) && !C.Gone(s, p)
  }

  ghost predicate Undoes(c: Setting) {
    exists run, p ::
      && PermittedRun(c, Start(c.names), run) && Legal(Start(c.names), run)
      && CancelUndone(Run(Start(c.names), run), p)
  }

  /** Wherever two uploads share a part file, the second can bring back what a cancel of the first removed. */
  lemma SharedPartFileUndoesCancel(c: Setting, j: Job, j': Job)
    requires TwoJobs(c, j, j') && j.part == j'.part
    ensures Undoes(c)
  {
    OtherEnters(c, j, j');
    var s :| Reach(c, s) && s.life == Beside(j.upload, j'.upload) && j.part in s.store.files.names
             && s.procs == map[2 := Cancelling(j, Removed(Some(j.part))), 3 := Fresh(j', Entered(j.part))];
    UndoneAt(c, s, 2);
  }

  // ---------- a cancel undone by another upload's commit ----------

  function AboutToRename(j: Job): Proc {
    Commit(Request(j, 2), Sized(j.part))
  }

  /** The first upload's commit is about to rename while the second upload is cancelled. */
  lemma CancelBeside(c: Setting, j: Job, j': Job)
    requires TwoJobs(c, j, j')
    ensures Reach(c, State(Tombstone(j'.upload, {0, 1}, 2),
                           OneSession(c, j, Sess(j, 2, {0}), OneFile(j.part, c.src[j.upload])),
                           map[2 := AboutToRename(j), 3 := Cancelling(j', Announced)]))
  {
    FirstStream(c, j, 2);
    WholePiece(c, j);
    var store := OneSession(c, j, Sess(j, 2, {0}), OneFile(j.part, c.src[j.upload]));
    SoloCommit(c, j, {0, 1}, 2, store, 2, 2);
    LifeCancels(j'.upload, {0, 1}, 2);
    var s := State(Idle({0, 1}, 2), store, map[2 := AboutToRename(j)]);
    var cancel := Cancelling(j', Announced);
    assert s.procs[3 := cancel] == map[2 := AboutToRename(j), 3 := cancel];
    Go(c, s, AskCancel(3, j'.upload, j'.target, 1, 1),
       State(Tombstone(j'.upload, {0, 1}, 2), store, map[2 := AboutToRename(j), 3 := cancel]));
  }

  lemma BesideWaits(c: Setting, j: Job, j': Job)
    requires TwoJobs(c, j, j')
    ensures Reach(c, State(Tombstone(j'.upload, {0, 1}, 2),
                           OneSession(c, j, Sess(j, 2, {0}), OneFile(j.part, c.src[j.upload])),
                           map[2 := AboutToRename(j), 3 := Cancelling(j', SessionMissing)]))
  {
    CancelBeside(c, j, j');
    var life := Tombstone(j'.upload, {0, 1}, 2);
    var store := OneSession(c, j, Sess(j, 2, {0}), OneFile(j.part, c.src[j.upload]));
    NothingToWaitFor(j'.upload);
    var s := State(life, store, map[2 := AboutToRename(j), 3 := Cancelling(j', Announced)]);
    Second(AboutToRename(j), Cancelling(j', Announced), Cancelling(j', Quiesced));
    Go(c, s, AwaitCancel(3), s.(procs := map[2 := AboutToRename(j), 3 := Cancelling(j', Quiesced)]));
    Second(AboutToRename(j), Cancelling(j', Quiesced), Cancelling(j', SessionMissing));
    Go(c, s.(procs := map[2 := AboutToRename(j), 3 := Cancelling(j', Quiesced)]), MissSession(3),
       s.(procs := map[2 := AboutToRename(j), 3 := Cancelling(j', SessionMissing)]));
  }

  lemma BesideRemoves(c: Setting, j: Job, j': Job)
    requires TwoJobs(c, j, j') && j.part != j'.part
    ensures Reach(c, State(Tombstone(j'.upload, {0, 1}, 2),
                           OneSession(c, j, Sess(j, 2, {0}), OneFile(j.part, c.src[j.upload])),
                           map[2 := AboutToRename(j), 3 := Cancelling(j', Removed(Some(j'.part)))]))
  {
    BesideWaits(c, j, j');
    var removed := Cancelling(j', Removed(Some(j'.part)));
    var s := State(Tombstone(j'.upload, {0, 1}, 2),
                   OneSession(c, j, Sess(j, 2, {0}), OneFile(j.part, c.src[j.upload])),
                   map[2 := AboutToRename(j), 3 := Cancelling(j', SessionMissing)]);
    Second(AboutToRename(j), Cancelling(j', SessionMissing), removed);
    assert Remove(s.store.files, j'.part) == s.store.files;
    Go(c, s, UnlinkPart(3), s.(procs := map[2 := AboutToRename(j), 3 := removed]));
  }

  /** The first upload's commit renames onto the part file that the cancel removed. */
  function BroughtBack(c: Setting, j: Job, j': Job): State
    requires j.upload in c.src
  {
    State(Tombstone(j'.upload, {0, 1}, 2), OneSession(c, j, Sess(j, 2, {0}), OneFile(j.target, c.src[j.upload])),
          map[2 := Done(j), 3 := Cancelling(j', Removed(Some(j'.part)))])
  }

  lemma BesideRenames(c: Setting, j: Job, j': Job)
    requires TwoJobs(c, j, j') && j.part != j'.part
    ensures Reach(c, BroughtBack(c, j, j'))
  {
    BesideRemoves(c, j, j');
    var removed := Cancelling(j', Removed(Some(j'.part)));
    var s := State(Tombstone(j'.upload, {0, 1}, 2),
                   OneSession(c, j, Sess(j, 2, {0}), OneFile(j.part, c.src[j.upload])),
                   map[2 := AboutToRename(j), 3 := removed]);
    RenamedOne(j, c.src[j.upload]);
    assert s.procs[2 := Done(j)] == map[2 := Done(j), 3 := removed];
    Go(c, s, RenamePart(2), BroughtBack(c, j, j'));
  }

  lemma UndoneAt(c: Setting, s: State, p: nat)
    requires Reach(c, s) && CancelUndone(s, p)
    ensures Undoes(c)
  {
    var run :| Leads(c, Start(c.names), run, s);
  }

  /** Wherever a target is another upload's part file, its commit can bring back what a cancel of that one removed. */
  lemma TargetAsPartFileUndoesCancel(c: Setting, j: Job, j': Job)
    requires TwoJobs(c, j, j') && j.part != j'.part && j.target == j'.part
    ensures Undoes(c)
  {
    BesideRenames(c, j, j');
    UndoneAt(c, BroughtBack(c, j, j'), 3);
  }

  // ---------- the source's own names ----------

  const SOURCES: Sources := map["b.komari-upload-c" := [1, 2], "c" := [3, 4], "A" := [1, 2], "B" := [3, 4]]

  function NamedJob(upload: string, name: string): Job {
    Job(upload, "/d/" + name, PartPath("/d/" + name, upload))
  }

  const SIMPLE := NamedJob("A", "f")
  const DOTTED := NamedJob("b.komari-upload-c", "a")
  const OTHER := NamedJob("c", "a.komari-upload-b")
  const SHAPED := NamedJob("A", ".f.komari-upload-B.part")
  const VICTIM := NamedJob("B", "f")

  function Jobs(rule: Dropped): set<Job> {
    match rule
    case PlainUploadIds => {DOTTED, OTHER}
    case PlainTargets => {SHAPED, VICTIM}
    case _ => {SIMPLE}
  }

  function Named(rule: Dropped): Setting {
    Setting(rule, SOURCES, PartPath, Jobs(rule))
  }

  lemma NamedJobIsOk(rule: Dropped, upload: string, name: string)
    requires upload in SOURCES && '/' !in upload && upload != "" && NamedJob(upload, name) in Jobs(rule)
    ensures var j := NamedJob(upload, name);
      JobOk(Named(rule), j) && j.part != j.target && j.upload in SOURCES
  {
    PartIsNotTarget("/d/" + name, upload);
    assert |("/d/" + name)| >= 3;
  }

  /** A run from an empty file system that keeps all conditions but the dropped one. */
  ghost predicate KeepsAllBut(rule: Dropped, run: seq<Event>) {
    && PermittedRun(Named(rule), Start(PartPath), run) && Legal(Start(PartPath), run)
    && (rule.PlainUploadIds? || forall e :: e in run ==> NamesPlainId(e))
    && (rule.PlainTargets? || forall e :: e in run ==> NamesPlainTarget(e))
    && (rule.QuietBegins? || rule.NoLateFailures? || BenignRun(SOURCES, Start(PartPath), run))
  }

  lemma TheJobsAreNamedSo(rule: Dropped)
    ensures !rule.PlainUploadIds? ==> forall j :: j in Jobs(rule) ==> PlainId(j.upload)
    ensures !rule.PlainTargets? ==> forall j :: j in Jobs(rule) ==> !PartShaped(j.target)
  {
    SplitPath("/d/", "f");
    SplitPath("/d/", "a");
    SplitPath("/d/", "a.komari-upload-b");
  }

  lemma PermittedKeepsAllBut(rule: Dropped, run: seq<Event>)
    requires PermittedRun(Named(rule), Start(PartPath), run) && Legal(Start(PartPath), run)
    ensures KeepsAllBut(rule, run)
  {
    TheJobsAreNamedSo(rule);
    OnlyTheJobsAreNamed(Named(rule), Start(PartPath), run);
    if !rule.QuietBegins? && !rule.NoLateFailures? {
      NothingDroppedIsBenign(Named(rule), Start(PartPath), run);
    }
  }

  ghost predicate SpoilsWithout(rule: Dropped) {
    exists run, p :: KeepsAllBut(rule, run) && CommitsWrong(SOURCES, Run(Start(PartPath), run), p)
  }

  ghost predicate UndoesWithout(rule: Dropped) {
    exists run, p :: KeepsAllBut(rule, run) && CancelUndone(Run(Start(PartPath), run), p)
  }

  lemma SpoilsSo(rule: Dropped)
    requires Spoils(Named(rule))
    ensures SpoilsWithout(rule)
  {
    var run, p :| PermittedRun(Named(rule), Start(PartPath), run) && Legal(Start(PartPath), run)
                  && CommitsWrong(SOURCES, Run(Start(PartPath), run), p);
    PermittedKeepsAllBut(rule, run);
  }

  lemma UndoesSo(rule: Dropped)
    requires Undoes(Named(rule))
    ensures UndoesWithout(rule)
  {
    var run, p :| PermittedRun(Named(rule), Start(PartPath), run) && Legal(Start(PartPath), run)
                  && CancelUndone(Run(Start(PartPath), run), p);
    PermittedKeepsAllBut(rule, run);
  }

  lemma DottedShare()
    ensures TwoJobs(Named(PlainUploadIds), DOTTED, OTHER) && DOTTED.part == OTHER.part
  {
    DottedDiffer();
    NamedJobIsOk(PlainUploadIds, DOTTED.upload, "a");
    NamedJobIsOk(PlainUploadIds, OTHER.upload, "a.komari-upload-b");
    DottedIdsCollide();
  }

  lemma DottedDiffer()
    ensures DOTTED.upload != OTHER.upload && DOTTED.upload in SOURCES && OTHER.upload in SOURCES
    ensures SOURCES[DOTTED.upload] != SOURCES[OTHER.upload]
    ensures '/' !in DOTTED.upload && '/' !in OTHER.upload
  {
    assert |DOTTED.upload| > 1 && |OTHER.upload| == 1;
    assert SOURCES[DOTTED.upload][0] == 1 && SOURCES[OTHER.upload][0] == 3;
  }

  lemma ShapedIsPartOfVictim()
    ensures TwoJobs(Named(PlainTargets), SHAPED, VICTIM) && SHAPED.part != VICTIM.part
    ensures SHAPED.target == VICTIM.part
  {
    NamedJobIsOk(PlainTargets, "A", ".f.komari-upload-B.part");
    NamedJobIsOk(PlainTargets, "B", "f");
    TargetCanBePartFile();
    PartPathIsInjective("/d/" + ".f.komari-upload-B.part", "A", "/d/" + "f", "B");
    assert SOURCES["A"] == [1, 2] && SOURCES["B"] == [3, 4];
  }

  /**
   None of the conditions can be left out: with the source's own names and from an empty file system, a run that keeps
   all but one of them, whichever this is, commits wrong bytes.
   */
  lemma EachConditionIsNeeded(rule: Dropped)
    requires !rule.Nothing?
    ensures SpoilsWithout(rule)
  {
    match rule {
    case PlainUploadIds =>
      DottedShare();
      SharedPartFileSpoils(Named(rule), DOTTED, OTHER);
    case PlainTargets =>
      ShapedIsPartOfVictim();
      TargetAsPartFileSpoils(Named(rule), SHAPED, VICTIM);
    case QuietBegins =>
      NamedJobIsOk(rule, "A", "f");
      LateStreamSpoilsNextCommit(Named(rule), SIMPLE);
    case NoLateFailures =>
      NamedJobIsOk(rule, "A", "f");
      LateFailureSpoilsRetry(Named(rule), SIMPLE);
    }
    SpoilsSo(rule);
  }

  /** Nor can the conditions on names be left out for cancels. */
  lemma EachNameIsNeededForCancel(rule: Dropped)
    requires rule.PlainUploadIds? || rule.PlainTargets?
    ensures UndoesWithout(rule)
  {
    if rule.PlainUploadIds? {
      DottedShare();
      SharedPartFileUndoesCancel(Named(rule), DOTTED, OTHER);
    } else {
      ShapedIsPartOfVictim();
      TargetAsPartFileUndoesCancel(Named(rule), SHAPED, VICTIM);
    }
    UndoesSo(rule);
  }

  /** With all of them kept, uploads do commit. */
  lemma BenignUploadsCommit()
    ensures exists run, p ::
      BenignRun(SOURCES, Start(PartPath), run) && WellNamed(run) && Legal(Start(PartPath), run)
          && Enabled(Run(Start(PartPath), run), RenamePart(p))
  {
    NamedJobIsOk(Nothing, "A", "f");
    SoloUploadCommits(Named(Nothing), SIMPLE);
    var run, p :| PermittedRun(Named(Nothing), Start(PartPath), run) && Legal(Start(PartPath), run)
                  && Enabled(Run(Start(PartPath), run), RenamePart(p));
    PermittedKeepsAllBut(Nothing, run);
  }
}
