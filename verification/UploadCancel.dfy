/**
 A cancelled upload stays away (`cancelUploadStreams` in `agent/server/file_stream.go`,
 `cancelFileUpload` in `agent/server/files.go`).

 Of the runs only names are assumed here: upload ids are plain, and no commit's target reads like a
 part file.  Streams may deliver anything and begin at any time, commits and cancels may overlap without
 excluding each other, and any step may fail.
 */
module UploadCancel {
  import opened Prelude
  import opened ChunkGeometry
  import opened UploadProtocol
  import opened UploadRefinement
  import opened PartNames
  import L = UploadLifecycle

  // ---------- part files carry the id of their upload ----------

  /** A part file of the upload, for some target. */
  ghost predicate PartOf(part: (string, string) -> Path, path: Path, u: string) {
    exists t :: path == part(t, u)
  }

  ghost predicate ProcNamesOk(part: (string, string) -> Path, proc: Proc) {
    && (proc.Stream? && proc.spc.Entered? ==> PartOf(part, proc.spc.part, proc.spec.upload))
    && (proc.Stream? && proc.spc.Copying? ==> PartOf(part, proc.spc.part, proc.spec.upload))
    && (proc.Cancel? && proc.xpc.Removed? && proc.xpc.part.Some? ==> PartOf(part, proc.xpc.part.value, proc.id))
  }

  ghost predicate NamesOk(s: State) {
    && (forall u :: u in s.store.chunks ==>
          s.store.chunks[u].temp.Some? && PartOf(s.store.part, s.store.chunks[u].temp.value, u))
    && (forall p :: p in s.procs ==> ProcNamesOk(s.store.part, s.procs[p]))
  }

  lemma EnterNames(st: Store, spec: Spec)
    requires spec.upload in st.chunks ==>
      st.chunks[spec.upload].temp.Some? && PartOf(st.part, st.chunks[spec.upload].temp.value, spec.upload)
    ensures Enter(st, spec).1.Success? ==> PartOf(st.part, Enter(st, spec).1.value, spec.upload)
    ensures forall u :: u in Enter(st, spec).0.chunks ==>
      || (u in st.chunks && Enter(st, spec).0.chunks[u] == st.chunks[u])
      || (u == spec.upload && Enter(st, spec).0.chunks[u].temp == Some(st.part(spec.path, u)))
  {
  }

  lemma StepKeepsNames(s: State, e: Event)
    requires NamesOk(s) && Enabled(s, e)
    ensures NamesOk(Step(s, e))
  {
    NamingStays(s, e);
    if e.EnterStream? {
      EnterNames(s.store, s.procs[e.p].spec);
    }
    forall p | p in Step(s, e).procs ensures ProcNamesOk(s.store.part, Step(s, e).procs[p]) {
      assert p in s.procs ==> ProcNamesOk(s.store.part, s.procs[p]);
    }
  }

  // ---------- what a cancel keeps true inside its fifteen minutes ----------

  /** Process p is a cancel that is past its wait. */
  predicate Settled(x: CancelPc) {
    !x.Announced?
  }

  ghost predicate CancelHolds(s: State, p: nat)
    requires IsCancel(s, p)
  {
    var Cancel(id, _, since, pc) := s.procs[p];
    && L.Tombstoned(s.life, id, since + L.TOMBSTONE_TTL)
    && (Settled(pc) ==> NoStreams(s, id))
    && (pc.SessionMissing? || pc.Removed? ==> id !in s.store.chunks)
    && (pc.Removed? && pc.part.Some? ==> pc.part.value !in s.store.files.names)
  }

  /** The cancel's fifteen minutes are not over. */
  predicate InTime(s: State, p: nat)
    requires IsCancel(s, p)
  {
    s.life.clock < s.procs[p].since + L.TOMBSTONE_TTL
  }

  ghost predicate CancelInv(s: State) {
    && Linked(s) && Apart(s) && NamesOk(s)
    && (forall p :: IsCancel(s, p) ==> s.procs[p].id != "")
    && (forall p :: IsCancel(s, p) && InTime(s, p) ==> CancelHolds(s, p))
  }

  /** A tombstone lets no stream of its upload begin. */
  lemma TombstoneBlocksBegin(s: State, e: Event, id: string, until: int)
    requires Linked(s) && Enabled(s, e) && e.BeginStream? && e.args.upload == id && id != ""
    requires L.Tombstoned(s.life, id, until) && Step(s, e).life.clock < until
    ensures Step(s, e).procs == s.procs
  {
    assert L.EntryOk(s.life, id);
  }

  /** The lifecycle side of any event keeps the tombstone. */
  lemma TombstoneKept(s: State, e: Event, id: string, until: int)
    requires Linked(s) && Enabled(s, e) && L.Tombstoned(s.life, id, until) && Step(s, e).life.clock < until
    ensures L.Tombstoned(Step(s, e).life, id, until)
  {
    if e.BeginStream? {
      L.TombstoneStays(s.life, L.EvBegin(e.p, e.args.upload, e.stream, e.now), id, until);
    } else if e.EndStream? {
      L.TombstoneStays(s.life, L.EvEnd(e.p), id, until);
    } else if e.AwaitCommit? || e.AwaitCancel? {
      L.TombstoneStays(s.life, L.EvWait(e.p, s.procs[e.p].Upload()), id, until);
    } else if e.AskCancel? {
      L.TombstoneStays(s.life, L.EvCancel(e.id, e.now, e.now'), id, until);
    }
  }

  lemma StreamCameFrom(s: State, e: Event, p: nat)
    requires Enabled(s, e) && IsStream(Step(s, e), p) && !(e.BeginStream? && p == e.p)
    ensures IsStream(s, p) && Step(s, e).procs[p].spec == s.procs[p].spec
  {
  }

  lemma NoNewStreams(s: State, e: Event, id: string, until: int)
    requires Linked(s) && Enabled(s, e) && id != "" && NoStreams(s, id)
    requires L.Tombstoned(s.life, id, until) && Step(s, e).life.clock < until
    ensures NoStreams(Step(s, e), id)
  {
    var s' := Step(s, e);
    if e.BeginStream? {
      ParsedSpecIsGood(e.args);
      if e.args.upload == id {
        TombstoneBlocksBegin(s, e, id, until);
      }
    }
    forall p | IsStream(s', p) ensures s'.procs[p].spec.upload != id {
      if !e.BeginStream? || p != e.p {
        StreamCameFrom(s, e, p);
      }
    }
  }

  /** Only a stream of the upload can make a session for it or create its part file. */
  lemma NothingReappears(s: State, e: Event, id: string, path: Path)
    requires Apart(s) && NamesOk(s) && Enabled(s, e) && NoStreams(s, id) && PlainId(id)
    requires PartOf(s.store.part, path, id)
    ensures path !in s.store.files.names ==> path !in Step(s, e).store.files.names
  {
    if e.p in s.procs {
      assert ProcNamesOk(s.store.part, s.procs[e.p]);
    }
  }

  lemma SessionStaysAway(s: State, e: Event, id: string)
    requires Enabled(s, e) && NoStreams(s, id)
    ensures id !in s.store.chunks ==> id !in Step(s, e).store.chunks
  {
  }

  lemma OtherCancelKept(s: State, e: Event, p: nat)
    requires CancelInv(s) && Enabled(s, e)
    requires IsCancel(s, p) && IsCancel(Step(s, e), p) && Step(s, e).procs[p] == s.procs[p] && InTime(Step(s, e), p)
    ensures CancelHolds(Step(s, e), p)
  {
    var Cancel(id, _, since, pc) := s.procs[p];
    var until := since + L.TOMBSTONE_TTL;
    HeldBefore(s, e, p);
    TombstoneKept(s, e, id, until);
    if Settled(pc) {
      NoNewStreams(s, e, id, until);
      SessionStaysAway(s, e, id);
      if pc.Removed? && pc.part.Some? {
        RemovedPartStaysAway(s, e, p);
      }
    }
  }

  lemma HeldBefore(s: State, e: Event, p: nat)
    requires CancelInv(s) && Enabled(s, e) && IsCancel(s, p)
    requires Step(s, e).life.clock < s.procs[p].since + L.TOMBSTONE_TTL
    ensures CancelHolds(s, p) && s.procs[p].id != "" && Linked(s)
  {
    ClockMoves(s, e);
    assert L.EntryOk(s.life, s.procs[p].id);
  }

  lemma RemovedPartStaysAway(s: State, e: Event, p: nat)
    requires CancelInv(s) && Enabled(s, e) && IsCancel(s, p) && CancelHolds(s, p)
    requires s.procs[p].xpc.Removed? && s.procs[p].xpc.part.Some?
    ensures s.procs[p].xpc.part.value !in Step(s, e).store.files.names
  {
    assert ProcNamesOk(s.store.part, s.procs[p]);
    NothingReappears(s, e, s.procs[p].id, s.procs[p].xpc.part.value);
  }

  lemma ClockMoves(s: State, e: Event)
    requires Enabled(s, e)
    ensures s.life.clock <= Step(s, e).life.clock
  {
  }

  lemma OwnCancelKept(s: State, e: Event)
    requires CancelInv(s) && Enabled(s, e) && (e.AwaitCancel? || CancelEvent(e))
    requires IsCancel(Step(s, e), e.p) && InTime(Step(s, e), e.p)
    ensures CancelHolds(Step(s, e), e.p)
  {
    var p, s' := e.p, Step(s, e);
    var Cancel(id, _, since, pc) := s.procs[p];
    ClockMoves(s, e);
    assert CancelHolds(s, p);
    TombstoneKept(s, e, id, since + L.TOMBSTONE_TTL);
    if e.AwaitCancel? {
      AwaitFindsNoStreams(s, e);
    } else {
      CancelEventMoves(s, e);
      NoNewStreams(s, e, id, since + L.TOMBSTONE_TTL);
    }
  }

  lemma NewCancelHolds(s: State, e: Event)
    requires CancelInv(s) && Enabled(s, e) && e.AskCancel?
    ensures CancelHolds(Step(s, e), e.p)
  {
    L.CancelLeavesTombstone(s.life, e.id, e.now, e.now');
  }

  lemma StepKeepsCancelInv(s: State, e: Event)
    requires CancelInv(s) && Enabled(s, e) && Named(s.store.part, e)
    ensures CancelInv(Step(s, e))
  {
    var s' := Step(s, e);
    StepKeepsLinked(s, e);
    StepKeepsApart(s, e);
    StepKeepsNames(s, e);
    forall p | IsCancel(s', p) ensures s'.procs[p].id != "" && (InTime(s', p) ==> CancelHolds(s', p)) {
      CancelAfterStep(s, e, p);
    }
  }

  lemma CancelAfterStep(s: State, e: Event, p: nat)
    requires CancelInv(s) && Enabled(s, e) && IsCancel(Step(s, e), p)
    ensures Step(s, e).procs[p].id != "" && (InTime(Step(s, e), p) ==> CancelHolds(Step(s, e), p))
  {
    var s' := Step(s, e);
    if e.AskCancel? && p == e.p {
      NewCancelHolds(s, e);
    } else {
      CancelCameFrom(s, e, p);
      if InTime(s', p) {
        if p == e.p && (e.AwaitCancel? || CancelEvent(e)) {
          OwnCancelKept(s, e);
        } else {
          OtherCancelKept(s, e, p);
        }
      }
    }
  }

  lemma CancelCameFrom(s: State, e: Event, p: nat)
    requires Enabled(s, e) && IsCancel(Step(s, e), p) && !(e.AskCancel? && p == e.p)
    ensures IsCancel(s, p) && Step(s, e).procs[p].id == s.procs[p].id && Step(s, e).procs[p].since == s.procs[p].since
    ensures !(p == e.p && (e.AwaitCancel? || CancelEvent(e))) ==> Step(s, e).procs[p] == s.procs[p]
  {
  }

  lemma {:induction false} RunKeepsCancelInv(s: State, run: seq<Event>)
    requires CancelInv(s) && Legal(s, run) && AllNamed(s.store.part, run)
    ensures CancelInv(Run(s, run)) && Run(s, run).store.part == s.store.part
    decreases |run|
  {
    if run != [] {
      assert Named(s.store.part, run[0]);
      StepKeepsCancelInv(s, run[0]);
      NamingStays(s, run[0]);
      RunKeepsCancelInv(Step(s, run[0]), run[1..]);
    }
  }

  /** Nothing is left of the upload that cancel p has finished with, and nothing can start it again. */
  ghost predicate Gone(s: State, p: nat)
    requires IsCancel(s, p) && s.procs[p].xpc.Removed?
  {
    var Cancel(id, _, since, Removed(part)) := s.procs[p];
    && id !in s.store.chunks
    && NoStreams(s, id)
    && (part.Some? ==> PartOf(s.store.part, part.value, id) && part.value !in s.store.files.names)
    && forall h: nat, k: string, now: nat :: now < since + L.TOMBSTONE_TTL ==> !L.Begin(s.life.core, id, k, h, now).1
  }

  lemma HeldCancelIsGone(s: State, p: nat)
    requires CancelInv(s) && IsCancel(s, p) && s.procs[p].xpc.Removed? && InTime(s, p)
    ensures Gone(s, p)
  {
    assert CancelHolds(s, p) && ProcNamesOk(s.store.part, s.procs[p]);
    assert L.EntryOk(s.life, s.procs[p].id);
  }

  /**
   Cancel safety: in every reachable state within fifteen minutes of a finished cancel, the upload has no
   running stream and no session, the part file the cancel removed is absent, and no stream of it can begin.
   */
  lemma CancelledUploadStaysAway(files: Files, run: seq<Event>, p: nat)
    requires Legal(Initial(files), run) && WellNamed(run)
    requires IsCancel(Run(Initial(files), run), p) && Run(Initial(files), run).procs[p].xpc.Removed?
    requires InTime(Run(Initial(files), run), p)
    ensures Gone(Run(Initial(files), run), p)
  {
    PartPathSeparates();
    WellNamedIsNamed(run);
    InitialCancelInv(files, PartPath);
    RunKeepsCancelInv(Initial(files), run);
    HeldCancelIsGone(Run(Initial(files), run), p);
  }

  lemma InitialCancelInv(files: Files, part: (string, string) -> Path)
    requires Separates(part)
    ensures CancelInv(InitialWith(files, part))
  {
  }

  // ---------- what a cancel removes, by its request ----------

  /** A finished cancel that was given a path has removed that path's part file. */
  ghost predicate AsRequested(s: State, p: nat)
    requires IsCancel(s, p)
  {
    s.procs[p].xpc.Removed? && s.procs[p].path != "" ==>
      s.procs[p].xpc.part == Some(s.store.part(s.procs[p].path, s.procs[p].id))
  }

  ghost predicate AllAsRequested(s: State) {
    forall p :: IsCancel(s, p) ==> AsRequested(s, p)
  }

  lemma StepKeepsRequests(src: Sources, s: State, e: Event)
    requires ContentInv(src, s) && AllAsRequested(s) && Enabled(s, e)
    ensures AllAsRequested(Step(s, e))
  {
    ProcFacts(src, s, e);
    NamingStays(s, e);
    forall p | IsCancel(Step(s, e), p) ensures AsRequested(Step(s, e), p) {
      if e.CancelSession? && p == e.p {
        assert UploadOk(src, s, s.procs[p].Upload());
      } else if p in s.procs {
        CancelRequestKept(s, e, p);
      }
    }
  }

  lemma CancelRequestKept(s: State, e: Event, p: nat)
    requires AllAsRequested(s) && Enabled(s, e) && IsCancel(Step(s, e), p) && p in s.procs
             && !(e.CancelSession? && p == e.p)
    ensures AsRequested(Step(s, e), p)
  {
    if IsCancel(s, p) {
      assert AsRequested(s, p);
    }
  }

  lemma {:induction false} RunKeepsRequests(src: Sources, s: State, run: seq<Event>)
    requires ContentInv(src, s) && AllAsRequested(s) && BenignRun(src, s, run) && AllNamed(s.store.part, run)
    requires Legal(s, run)
    ensures AllAsRequested(Run(s, run))
    decreases |run|
  {
    if run != [] {
      var e := run[0];
      assert Named(s.store.part, e);
      StepKeepsRequests(src, s, e);
      StepKeepsContent(src, s, e);
      NamingStays(s, e);
      RunKeepsRequests(src, Step(s, e), run[1..]);
    }
  }

  /**
   In terms of the request: over every benign and well named run, within fifteen minutes of a successful cancel of an
   upload to a path, the part file of this path and upload does not exist, whether there was a session or not.
   */
  lemma CancelledPartIsAbsent(src: Sources, files: Files, run: seq<Event>, p: nat)
    requires FilesOk(files) && BenignRun(src, Initial(files), run) && Legal(Initial(files), run) && WellNamed(run)
    requires IsCancel(Run(Initial(files), run), p) && Run(Initial(files), run).procs[p].xpc.Removed?
    requires InTime(Run(Initial(files), run), p) && Run(Initial(files), run).procs[p].path != ""
    ensures var s := Run(Initial(files), run);
      PartPath(s.procs[p].path, s.procs[p].id) !in s.store.files.names
  {
    PartPathSeparates();
    WellNamedIsNamed(run);
    InitialContent(src, files, PartPath);
    RunKeepsRequests(src, Initial(files), run);
    RunKeepsContent(src, Initial(files), run);
    CancelledUploadStaysAway(files, run, p);
    assert AsRequested(Run(Initial(files), run), p);
  }
}
