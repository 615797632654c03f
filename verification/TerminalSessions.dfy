/**
 Reattachable terminal sessions (`agent/terminal/terminal.go`).

 Requests join an existing session or make one, connections come and go, retention timers
 fire, and closes run, all interleaved.  The sections that hold both locks, or only one of
 them, are single events.  Sessions, PTYs, connections and timers are numbered.
 */
module TerminalSessions {
  import opened Prelude

  /** A session record; `timer` is the field, which keeps a timer that has already fired. */
  datatype Session = Session(id: string, term: nat, conn: Option<nat>, timer: Option<nat>, removed: bool)

  datatype Proc =
    | Looking(id: string, conn: nat)
    | Spawning(id: string, conn: nat)
    | Spawned(id: string, conn: nat, term: nat)
    | First(session: nat)
    | Serving(session: nat)
    | Closing(session: nat)
    | Taken(session: nat)
    | Marked(session: nat)
    | Orphan(term: nat)

  /**
   `ticking` are the timers that have not fired or been stopped; `timers`, `terms` and `conns` are the timers, PTYs and
   connections there have been; `readers` and `closes` count started readers and closed PTYs.
   */
  datatype State = State(table: map<string, nat>, sessions: map<nat, Session>, procs: map<nat, Proc>,
                         ticking: map<nat, nat>, timers: set<nat>, terms: set<nat>, conns: set<nat>,
                         readers: multiset<nat>, closes: multiset<nat>)

  // ---------- the sections on one session ----------

  /** A connection takes the session over and its retention timer is stopped. */
  function Attached(s: Session, conn: nat): Session {
    s.(removed := false, timer := None, conn := Some(conn))
  }

  function Stopped(ticking: map<nat, nat>, timer: Option<nat>): map<nat, nat> {
    if timer.Some? then ticking - {timer.value} else ticking
  }

  predicate DetachApplies(s: Session, conn: nat) {
    !s.removed && s.conn == Some(conn)
  }

  /** A connection that is still the session's lets go of it, and the retention timer is armed. */
  function Detached(s: Session, conn: nat, timer: nat): Session {
    if !DetachApplies(s, conn) then s
    else s.(conn := None, timer := if s.timer.None? then Some(timer) else s.timer)
  }

  function MarkedRemoved(s: Session): Session {
    if s.removed then s else s.(removed := true, timer := None, conn := None)
  }

  // ---------- events ----------

  datatype Event =
    | Ask(p: nat, id: string, conn: nat)
    | Look(p: nat)
    | Spawn(p: nat, term: nat)
    | SpawnFails(p: nat)
    | Relook(p: nat, session: nat, q: nat)
    | StartReader(p: nat)
    | Detach(session: nat, conn: nat, timer: nat)
    | Fire(timer: nat, p: nat)
    | AskClose(p: nat, session: nat)
    | Take(p: nat)
    | Mark(p: nat)
    | CloseTerm(p: nat)
    | CloseOrphan(p: nat)

  predicate Enabled(s: State, e: Event) {
    match e
    case Ask(p, _, conn) => p !in s.procs && conn !in s.conns
    case Look(p) => p in s.procs && s.procs[p].Looking?
        && (s.procs[p].id in s.table ==> s.table[s.procs[p].id] in s.sessions)
    case Spawn(p, term) => p in s.procs && s.procs[p].Spawning? && term !in s.terms
    case SpawnFails(p) => p in s.procs && s.procs[p].Spawning?
    case Relook(p, session, q) =>
      && p in s.procs && s.procs[p].Spawned? && session !in s.sessions && q !in s.procs
      && (s.procs[p].id in s.table ==> s.table[s.procs[p].id] in s.sessions)
    case StartReader(p) => p in s.procs && s.procs[p].First?
    case Detach(session, _, timer) => session in s.sessions && timer !in s.timers
    case Fire(timer, p) => timer in s.ticking && p !in s.procs
    case AskClose(p, session) => p !in s.procs && session in s.sessions
    case Take(p) => p in s.procs && s.procs[p].Closing? && s.procs[p].session in s.sessions
    case Mark(p) => p in s.procs && s.procs[p].Taken? && s.procs[p].session in s.sessions
    case CloseTerm(p) => p in s.procs && s.procs[p].Marked? && s.procs[p].session in s.sessions
    case CloseOrphan(p) => p in s.procs && s.procs[p].Orphan?
  }

  /** The section of acquireSession that holds both locks, on a session of the table. */
  function Join(s: State, session: nat, conn: nat): State
    requires session in s.sessions
  {
    s.(ticking := Stopped(s.ticking, s.sessions[session].timer),
       sessions := s.sessions[session := Attached(s.sessions[session], conn)])
  }

  function Moved(s: State, p: nat, proc: Proc): State {
    s.(procs := s.procs[p := proc])
  }

  function Gone(s: State, p: nat): State {
    s.(procs := s.procs - {p})
  }

  function Step(s: State, e: Event): State
    requires Enabled(s, e)
  {
    match e
    case Ask(p, id, conn) => Moved(s.(conns := s.conns + {conn}), p, Looking(id, conn))
    case Look(p) =>
      var Looking(id, conn) := s.procs[p];
      if id in s.table then Moved(Join(s, s.table[id], conn), p, Serving(s.table[id]))
      else Moved(s, p, Spawning(id, conn))
    case Spawn(p, term) =>
      Moved(s.(terms := s.terms + {term}), p, Spawned(s.procs[p].id, s.procs[p].conn, term))
    case SpawnFails(p) => Gone(s, p)
    case Relook(p, session, q) =>
      var Spawned(id, conn, term) := s.procs[p];
      if id in s.table then Moved(Moved(Join(s, s.table[id], conn), p, Serving(s.table[id])), q, Orphan(term))
      else
        var s' := s.(sessions := s.sessions[session := Session(id, term, None, None, false)],
                     table := s.table[id := session]);
        Moved(Join(s', session, conn), p, First(session))
    case StartReader(p) =>
      Moved(s.(readers := s.readers + multiset{s.procs[p].session}), p, Serving(s.procs[p].session))
    case Detach(session, conn, timer) =>
      var x := s.sessions[session];
      var arms := DetachApplies(x, conn) && x.timer.None?;
      s.(sessions := s.sessions[session := Detached(x, conn, timer)],
         ticking := if arms then s.ticking[timer := session] else s.ticking,
         timers := if arms then s.timers + {timer} else s.timers)
    case Fire(timer, p) =>
      Moved(s.(ticking := s.ticking - {timer}), p, Closing(s.ticking[timer]))
    case AskClose(p, session) => Moved(s, p, Closing(session))
    case Take(p) =>
      var session := s.procs[p].session;
      var id := s.sessions[session].id;
      if id in s.table && s.table[id] == session then Moved(s.(table := s.table - {id}), p, Taken(session))
      else Gone(s, p)
    case Mark(p) =>
      var session := s.procs[p].session;
      var x := s.sessions[session];
      if x.removed then Gone(s, p)
      else Moved(s.(ticking := Stopped(s.ticking, x.timer), sessions := s.sessions[session := MarkedRemoved(x)]), p,
                 Marked(session))
    case CloseTerm(p) =>
      Gone(s.(closes := s.closes + multiset{s.sessions[s.procs[p].session].term}), p)
    case CloseOrphan(p) => Gone(s.(closes := s.closes + multiset{s.procs[p].term}), p)
  }

  function Initial(): State {
    State(map[], map[], map[], map[], {}, {}, {}, multiset{}, multiset{})
  }

  predicate Legal(s: State, run: seq<Event>)
    decreases |run|
  {
    run == [] || (Enabled(s, run[0]) && Legal(Step(s, run[0]), run[1..]))
  }

  function Run(s: State, run: seq<Event>): State
    requires Legal(s, run)
    decreases |run|
  {
    if run == [] then s else Run(Step(s, run[0]), run[1..])
  }

  // ---------- the invariant ----------

  predicate Listed(s: State, x: nat) {
    x in s.sessions && s.sessions[x].id in s.table && s.table[s.sessions[x].id] == x
  }

  /** Process p has taken session x out of the table and not closed its PTY yet. */
  predicate Holds(s: State, p: nat, x: nat) {
    p in s.procs && (s.procs[p] == Taken(x) || s.procs[p] == Marked(x))
  }

  predicate IsFirst(s: State, p: nat, x: nat) {
    p in s.procs && s.procs[p] == First(x)
  }

  /** A listed session is not removed and has its retention timer set exactly when it has no connection. */
  ghost predicate ListedOk(s: State) {
    && (forall id :: id in s.table ==> s.table[id] in s.sessions && s.sessions[s.table[id]].id == id)
    && (forall x :: Listed(s, x) ==>
          && !s.sessions[x].removed && (s.sessions[x].timer.Some? <==> s.sessions[x].conn.None?)
          && forall p :: !Holds(s, p, x))
  }

  /** A session is closed by at most one process, and its PTY is closed only by that one. */
  ghost predicate ClosersOk(s: State) {
    && (forall p, q, x :: Holds(s, p, x) && Holds(s, q, x) ==> p == q)
    && (forall p, x :: Holds(s, p, x) ==> x in s.sessions && s.closes[s.sessions[x].term] == 0)
    && (forall p, x :: p in s.procs && s.procs[p] == Taken(x) ==> x in s.sessions && !s.sessions[x].removed)
    && (forall x :: Listed(s, x) ==> s.closes[s.sessions[x].term] == 0)
  }

  /** No PTY has two owners, and none is closed twice. */
  ghost predicate TermsOk(s: State) {
    && (forall x :: x in s.sessions ==> s.sessions[x].term in s.terms)
    && (forall x, y :: x in s.sessions && y in s.sessions && x != y ==> s.sessions[x].term != s.sessions[y].term)
    && (forall p :: p in s.procs && OwnsTerm(s.procs[p]) ==>
          && s.procs[p].term in s.terms && s.closes[s.procs[p].term] == 0
          && (forall x :: x in s.sessions ==> s.sessions[x].term != s.procs[p].term)
          && (forall q :: q in s.procs && q != p && OwnsTerm(s.procs[q]) ==> s.procs[q].term != s.procs[p].term))
    && (forall t :: s.closes[t] <= 1 && (t !in s.terms ==> s.closes[t] == 0))
  }

  predicate OwnsTerm(proc: Proc) {
    proc.Spawned? || proc.Orphan?
  }

  /** Every session has its one reader, or the process that made it is about to start it. */
  ghost predicate ReadersOk(s: State) {
    && (forall x :: x !in s.sessions ==> s.readers[x] == 0)
    && (forall p, x :: IsFirst(s, p, x) ==> x in s.sessions && s.readers[x] == 0)
    && (forall p, q, x :: IsFirst(s, p, x) && IsFirst(s, q, x) ==> p == q)
    && (forall x :: x in s.sessions && s.readers[x] != 1 ==> s.readers[x] == 0 && exists p :: IsFirst(s, p, x))
  }

  /** A ticking timer is the one of its session, and timer fields name different timers that there have been. */
  ghost predicate TimersOk(s: State) {
    && (forall t :: t in s.ticking ==>
          t in s.timers && s.ticking[t] in s.sessions && s.sessions[s.ticking[t]].timer == Some(t))
    && (forall x :: x in s.sessions && s.sessions[x].timer.Some? ==> s.sessions[x].timer.value in s.timers)
    && (forall x, y :: HasTimer(s, x) && HasTimer(s, y) && s.sessions[x].timer == s.sessions[y].timer ==> x == y)
  }

  predicate HasTimer(s: State, x: nat) {
    x in s.sessions && s.sessions[x].timer.Some?
  }

  predicate ClosingOf(s: State, p: nat, x: nat) {
    p in s.procs && s.procs[p] == Closing(x)
  }

  predicate TimerRuns(s: State, x: nat) {
    && x in s.sessions && s.sessions[x].timer.Some?
    && s.sessions[x].timer.value in s.ticking && s.ticking[s.sessions[x].timer.value] == x
  }

  /** A listed session without connection has a running timer, or a close of it is under way. */
  ghost predicate RetentionOk(s: State) {
    forall x :: Listed(s, x) && s.sessions[x].conn.None? ==> TimerRuns(s, x) || exists p :: ClosingOf(s, p, x)
  }

  /** The process will put the PTY into a session or close it. */
  predicate Owns(s: State, p: nat, t: nat) {
    p in s.procs && OwnsTerm(s.procs[p]) && s.procs[p].term == t
  }

  /** The session is in the table, or a process that took it out will close its PTY. */
  ghost predicate Alive(s: State, x: nat) {
    x in s.sessions && (Listed(s, x) || exists p :: Holds(s, p, x))
  }

  /** The PTY was closed once, or somebody answers for it. */
  ghost predicate Accounted(s: State, t: nat) {
    || s.closes[t] == 1
    || (exists p :: Owns(s, p, t))
    || (exists x :: Alive(s, x) && s.sessions[x].term == t)
  }

  ghost predicate AllAccounted(s: State) {
    forall t :: t in s.terms ==> Accounted(s, t)
  }

  ghost predicate Inv(s: State) {
    && ListedOk(s) && ClosersOk(s) && TermsOk(s) && ReadersOk(s) && TimersOk(s) && RetentionOk(s)
    && AllAccounted(s)
  }

  predicate Joins(s: State, e: Event) {
    (e.Look? || e.Relook?) && e.p in s.procs && (s.procs[e.p].Looking? || s.procs[e.p].Spawned?)
        && s.procs[e.p].id in s.table
  }

  lemma JoinKeepsListed(s: State, e: Event)
    requires ListedOk(s) && Enabled(s, e) && Joins(s, e)
    ensures ListedOk(Step(s, e))
  {
    var x := s.table[s.procs[e.p].id];
    assert Listed(s, x);
    var s' := Step(s, e);
    forall y | Listed(s', y) ensures Listed(s, y) {
    }
    forall p, y | Holds(s', p, y) ensures Holds(s, p, y) {
    }
  }

  lemma ProcEventKeepsListed(s: State, e: Event)
    requires ListedOk(s) && Enabled(s, e)
    requires e.Ask? || e.Spawn? || e.SpawnFails? || e.StartReader? || e.Fire? || e.AskClose? || e.CloseTerm?
             || e.CloseOrphan?
    ensures ListedOk(Step(s, e))
  {
    var s' := Step(s, e);
    forall y | Listed(s', y) ensures Listed(s, y) {
    }
    forall p, y | Holds(s', p, y) ensures Holds(s, p, y) {
    }
  }

  lemma MissOrDetachKeepsListed(s: State, e: Event)
    requires ListedOk(s) && Enabled(s, e) && (e.Look? || e.Detach?) && !Joins(s, e)
    ensures ListedOk(Step(s, e))
  {
    var s' := Step(s, e);
    forall p, y | Holds(s', p, y) ensures Holds(s, p, y) {
    }
    forall y | Listed(s', y) ensures Listed(s, y) {
    }
  }

  lemma CreateKeepsListed(s: State, e: Event)
    requires ListedOk(s) && ClosersOk(s) && Enabled(s, e) && e.Relook? && !Joins(s, e)
    ensures ListedOk(Step(s, e))
  {
    var s' := Step(s, e);
    forall p, y | Holds(s', p, y) ensures Holds(s, p, y) && y != e.session {
      assert Holds(s, p, y);
    }
    forall y | Listed(s', y) ensures Listed(s, y) || y == e.session {
    }
  }

  lemma TakeKeepsListed(s: State, e: Event)
    requires ListedOk(s) && Enabled(s, e) && e.Take?
    ensures ListedOk(Step(s, e))
  {
    var s', x := Step(s, e), s.procs[e.p].session;
    forall y | Listed(s', y) ensures Listed(s, y) && (e.p in s'.procs ==> y != x) {
    }
    forall p, y | Holds(s', p, y) ensures Holds(s, p, y) || (p == e.p && y == x) {
    }
  }

  lemma MarkKeepsListed(s: State, e: Event)
    requires ListedOk(s) && Enabled(s, e) && e.Mark?
    ensures ListedOk(Step(s, e))
  {
    var s', x := Step(s, e), s.procs[e.p].session;
    assert Holds(s, e.p, x) && !Listed(s, x);
    forall y | Listed(s', y) ensures Listed(s, y) && y != x {
    }
    forall p, y | Holds(s', p, y) ensures Holds(s, p, y) {
    }
  }

  lemma StepKeepsListed(s: State, e: Event)
    requires ListedOk(s) && ClosersOk(s) && Enabled(s, e)
    ensures ListedOk(Step(s, e))
  {
    if Joins(s, e) {
      JoinKeepsListed(s, e);
    } else if e.Look? || e.Detach? {
      MissOrDetachKeepsListed(s, e);
    } else if e.Relook? {
      CreateKeepsListed(s, e);
    } else if e.Take? {
      TakeKeepsListed(s, e);
    } else if e.Mark? {
      MarkKeepsListed(s, e);
    } else {
      ProcEventKeepsListed(s, e);
    }
  }

  lemma HolderCameFrom(s: State, e: Event, p: nat, x: nat)
    requires ListedOk(s) && Enabled(s, e) && Holds(Step(s, e), p, x)
    ensures Holds(s, p, x) || (e.Take? && p == e.p && Listed(s, x))
  {
  }

  lemma ListedCameFrom(s: State, e: Event, x: nat)
    requires ListedOk(s) && Enabled(s, e) && Listed(Step(s, e), x)
    ensures Listed(s, x) || (e.Relook? && x == e.session && x !in s.sessions)
  {
  }

  lemma SessionStays(s: State, e: Event, x: nat)
    requires Enabled(s, e) && x in s.sessions
    ensures x in Step(s, e).sessions && Step(s, e).sessions[x].term == s.sessions[x].term
  {
  }

  /** Where the holders, the listed sessions and the PTYs of the next state come from. */
  lemma HoldersComeFrom(s: State, e: Event)
    requires ListedOk(s) && Enabled(s, e)
    ensures forall p, x :: Holds(Step(s, e), p, x) ==> Holds(s, p, x) || (e.Take? && p == e.p && Listed(s, x))
    ensures forall x :: Listed(Step(s, e), x) ==> Listed(s, x) || (e.Relook? && x == e.session && x !in s.sessions)
    ensures forall x :: x in s.sessions ==>
      x in Step(s, e).sessions && Step(s, e).sessions[x].term == s.sessions[x].term
  {
    var s' := Step(s, e);
    forall p, x | Holds(s', p, x) ensures Holds(s, p, x) || (e.Take? && p == e.p && Listed(s, x)) {
      HolderCameFrom(s, e, p, x);
    }
    forall x | Listed(s', x) ensures Listed(s, x) || (e.Relook? && x == e.session && x !in s.sessions) {
      ListedCameFrom(s, e, x);
    }
    forall x | x in s.sessions ensures x in s'.sessions && s'.sessions[x].term == s.sessions[x].term {
      SessionStays(s, e, x);
    }
  }

  lemma JoinedAreListed(s: State, e: Event)
    requires ListedOk(s) && Enabled(s, e)
    ensures Joins(s, e) ==> Listed(s, s.table[s.procs[e.p].id])
  {
  }

  lemma ClosesComeFrom(s: State, e: Event, t: nat)
    requires ClosersOk(s) && TermsOk(s) && Enabled(s, e) && Step(s, e).closes[t] != s.closes[t]
    ensures Step(s, e).closes[t] == s.closes[t] + 1 == 1
    ensures (e.CloseTerm? && Holds(s, e.p, s.procs[e.p].session) && t == s.sessions[s.procs[e.p].session].term)
            || (e.CloseOrphan? && t == s.procs[e.p].term)
  {
    if e.CloseTerm? {
      assert Holds(s, e.p, s.procs[e.p].session);
    }
  }

  lemma HolderKeepsTermOpen(s: State, e: Event, p: nat, x: nat)
    requires ListedOk(s) && ClosersOk(s) && TermsOk(s) && Enabled(s, e) && Holds(Step(s, e), p, x)
    ensures x in Step(s, e).sessions && Step(s, e).closes[Step(s, e).sessions[x].term] == 0
  {
    HoldersComeFrom(s, e);
    assert x in s.sessions && s.closes[s.sessions[x].term] == 0;
    if Step(s, e).closes[s.sessions[x].term] != 0 {
      ClosesComeFrom(s, e, s.sessions[x].term);
    }
  }

  lemma ListedKeepsTermOpen(s: State, e: Event, x: nat)
    requires ListedOk(s) && ClosersOk(s) && TermsOk(s) && Enabled(s, e) && Listed(Step(s, e), x)
    ensures Step(s, e).closes[Step(s, e).sessions[x].term] == 0
  {
    HoldersComeFrom(s, e);
    if Listed(s, x) && Step(s, e).closes[s.sessions[x].term] != 0 {
      ClosesComeFrom(s, e, s.sessions[x].term);
    }
  }

  lemma TakenStaysUnremoved(s: State, e: Event, p: nat, x: nat)
    requires ListedOk(s) && ClosersOk(s) && Enabled(s, e) && p in Step(s, e).procs && Step(s, e).procs[p] == Taken(x)
    ensures x in Step(s, e).sessions && !Step(s, e).sessions[x].removed
  {
    assert Holds(Step(s, e), p, x);
    HoldersComeFrom(s, e);
    if Step(s, e).sessions[x].removed {
      RemovedByMark(s, e, x);
      assert Holds(s, e.p, x);
    }
  }

  lemma RemovedByMark(s: State, e: Event, x: nat)
    requires Enabled(s, e) && x in s.sessions && !s.sessions[x].removed && Step(s, e).sessions[x].removed
    ensures e.Mark? && s.procs[e.p].session == x && s.procs[e.p].Taken? && Step(s, e).procs[e.p] == Marked(x)
  {
  }

  lemma HoldersAreUnique(s: State, e: Event, p: nat, q: nat, x: nat)
    requires ListedOk(s) && ClosersOk(s) && Enabled(s, e) && Holds(Step(s, e), p, x) && Holds(Step(s, e), q, x)
    ensures p == q
  {
    HolderCameFrom(s, e, p, x);
    HolderCameFrom(s, e, q, x);
  }

  lemma StepKeepsClosers(s: State, e: Event)
    requires ListedOk(s) && ClosersOk(s) && TermsOk(s) && Enabled(s, e)
    ensures ClosersOk(Step(s, e))
  {
    var s' := Step(s, e);
    forall p, q, x | Holds(s', p, x) && Holds(s', q, x) ensures p == q {
      HoldersAreUnique(s, e, p, q, x);
    }
    forall p, x | Holds(s', p, x) ensures x in s'.sessions && s'.closes[s'.sessions[x].term] == 0 {
      HolderKeepsTermOpen(s, e, p, x);
    }
    forall p, x | p in s'.procs && s'.procs[p] == Taken(x) ensures x in s'.sessions && !s'.sessions[x].removed {
      TakenStaysUnremoved(s, e, p, x);
    }
    forall x | Listed(s', x) ensures s'.closes[s'.sessions[x].term] == 0 {
      ListedKeepsTermOpen(s, e, x);
    }
  }

  lemma StepKeepsTerms(s: State, e: Event)
    requires ListedOk(s) && ClosersOk(s) && TermsOk(s) && Enabled(s, e)
    ensures TermsOk(Step(s, e))
  {
    var s' := Step(s, e);
    forall t ensures s'.closes[t] <= 1 && (t !in s'.terms ==> s'.closes[t] == 0) {
      if s'.closes[t] != s.closes[t] {
        ClosesComeFrom(s, e, t);
      }
    }
    forall p | p in s'.procs && OwnsTerm(s'.procs[p]) ensures OwnerOk(s', p) {
      OwnerAfter(s, e, p);
    }
    SessionTermsAfter(s, e);
  }

  ghost predicate OwnerOk(s: State, p: nat)
    requires p in s.procs && OwnsTerm(s.procs[p])
  {
    && s.procs[p].term in s.terms && s.closes[s.procs[p].term] == 0
    && (forall x :: x in s.sessions ==> s.sessions[x].term != s.procs[p].term)
    && (forall q :: q in s.procs && q != p && OwnsTerm(s.procs[q]) ==> s.procs[q].term != s.procs[p].term)
  }

  lemma OwnedTermIsOpen(s: State, e: Event, p: nat)
    requires ListedOk(s) && ClosersOk(s) && TermsOk(s) && Enabled(s, e)
    requires p in Step(s, e).procs && OwnsTerm(Step(s, e).procs[p])
    ensures var t := Step(s, e).procs[p].term; t in Step(s, e).terms && Step(s, e).closes[t] == 0
  {
    OwnerCameFrom(s, e, p);
    TermsGrow(s, e);
    var t := Step(s, e).procs[p].term;
    if Step(s, e).closes[t] != s.closes[t] {
      ClosesComeFrom(s, e, t);
    }
  }

  lemma OwnersDiffer(s: State, e: Event, p: nat, q: nat)
    requires ListedOk(s) && TermsOk(s) && Enabled(s, e) && p != q
    requires p in Step(s, e).procs && OwnsTerm(Step(s, e).procs[p])
    requires q in Step(s, e).procs && OwnsTerm(Step(s, e).procs[q])
    ensures Step(s, e).procs[q].term != Step(s, e).procs[p].term
  {
    OwnerCameFrom(s, e, p);
    OwnerCameFrom(s, e, q);
  }

  lemma OwnerIsNoSession(s: State, e: Event, p: nat, x: nat)
    requires ListedOk(s) && TermsOk(s) && Enabled(s, e)
    requires p in Step(s, e).procs && OwnsTerm(Step(s, e).procs[p]) && x in Step(s, e).sessions
    ensures Step(s, e).sessions[x].term != Step(s, e).procs[p].term
  {
    OwnerCameFrom(s, e, p);
    SessionCameFrom(s, e, x);
  }

  lemma OwnerAfter(s: State, e: Event, p: nat)
    requires ListedOk(s) && ClosersOk(s) && TermsOk(s) && Enabled(s, e)
    requires p in Step(s, e).procs && OwnsTerm(Step(s, e).procs[p])
    ensures OwnerOk(Step(s, e), p)
  {
    var s' := Step(s, e);
    OwnedTermIsOpen(s, e, p);
    forall q | q in s'.procs && q != p && OwnsTerm(s'.procs[q]) ensures s'.procs[q].term != s'.procs[p].term {
      OwnersDiffer(s, e, p, q);
    }
    forall x | x in s'.sessions ensures s'.sessions[x].term != s'.procs[p].term {
      OwnerIsNoSession(s, e, p, x);
    }
  }

  /** An owner of a PTY had it before, took it over from the process that lost the race, or has just made it. */
  lemma OwnerCameFrom(s: State, e: Event, p: nat)
    requires ListedOk(s) && Enabled(s, e) && p in Step(s, e).procs && OwnsTerm(Step(s, e).procs[p])
    ensures var t := Step(s, e).procs[p].term;
      || (p in s.procs && OwnsTerm(s.procs[p]) && s.procs[p].term == t && !(e.Relook? && e.p == p))
      || (e.Relook? && p == e.q && t == s.procs[e.p].term && Joins(s, e))
      || (e.Spawn? && p == e.p && t == e.term)
  {
  }

  predicate Creates(s: State, e: Event, x: nat) {
    e.Relook? && x == e.session && e.p in s.procs && s.procs[e.p].Spawned? && !Joins(s, e)
  }

  lemma SessionCameFrom(s: State, e: Event, x: nat)
    requires ListedOk(s) && Enabled(s, e) && x in Step(s, e).sessions
    ensures (x in s.sessions && Step(s, e).sessions[x].term == s.sessions[x].term)
            || (x !in s.sessions && Creates(s, e, x) && Step(s, e).sessions[x].term == s.procs[e.p].term)
  {
    JoinedAreListed(s, e);
  }

  lemma TermsGrow(s: State, e: Event)
    requires Enabled(s, e)
    ensures s.terms <= Step(s, e).terms
  {
  }

  lemma SessionTermsAfter(s: State, e: Event)
    requires ListedOk(s) && TermsOk(s) && Enabled(s, e)
    ensures forall x :: x in Step(s, e).sessions ==> Step(s, e).sessions[x].term in Step(s, e).terms
    ensures forall x, y :: x in Step(s, e).sessions && y in Step(s, e).sessions && x != y ==>
              Step(s, e).sessions[x].term != Step(s, e).sessions[y].term
    ensures forall x :: x in Step(s, e).sessions ==>
              (x in s.sessions && Step(s, e).sessions[x].term == s.sessions[x].term)
              || (Creates(s, e, x) && Step(s, e).sessions[x].term == s.procs[e.p].term)
  {
    var s' := Step(s, e);
    TermsGrow(s, e);
    forall x | x in s'.sessions
      ensures s'.sessions[x].term in s'.terms
      ensures (x in s.sessions && s'.sessions[x].term == s.sessions[x].term)
              || (Creates(s, e, x) && s'.sessions[x].term == s.procs[e.p].term)
    {
      SessionCameFrom(s, e, x);
    }
    forall x, y | x in s'.sessions && y in s'.sessions && x != y ensures s'.sessions[x].term != s'.sessions[y].term {
      SessionCameFrom(s, e, x);
      SessionCameFrom(s, e, y);
    }
  }

  lemma FirstCameFrom(s: State, e: Event, p: nat, x: nat)
    requires Enabled(s, e) && IsFirst(Step(s, e), p, x)
    ensures (IsFirst(s, p, x) && !(e.StartReader? && p == e.p))
            || (e.Relook? && p == e.p && x == e.session && x !in s.sessions)
  {
  }

  lemma FirstStays(s: State, e: Event, p: nat, x: nat)
    requires Enabled(s, e) && IsFirst(s, p, x) && !(e.StartReader? && p == e.p)
    ensures IsFirst(Step(s, e), p, x)
  {
  }

  lemma ReadersCount(s: State, e: Event, x: nat)
    requires Enabled(s, e)
    ensures Step(s, e).readers[x] == s.readers[x] + (if e.StartReader? && s.procs[e.p] == First(x) then 1 else 0)
  {
  }

  lemma SessionHasReader(s: State, e: Event, x: nat)
    requires ListedOk(s) && ReadersOk(s) && Enabled(s, e) && x in Step(s, e).sessions && Step(s, e).readers[x] != 1
    ensures Step(s, e).readers[x] == 0 && exists p :: IsFirst(Step(s, e), p, x)
  {
    ReadersCount(s, e, x);
    SessionCameFrom(s, e, x);
    if x in s.sessions {
      if e.StartReader? {
        assert IsFirst(s, e.p, s.procs[e.p].session);
      }
      assert s.readers[x] != 1;
      var p :| IsFirst(s, p, x);
      FirstStays(s, e, p, x);
    } else {
      assert IsFirst(Step(s, e), e.p, x);
    }
  }

  lemma FirstsAreUnread(s: State, e: Event)
    requires ReadersOk(s) && Enabled(s, e)
    ensures forall p, x :: IsFirst(Step(s, e), p, x) ==> x in Step(s, e).sessions && Step(s, e).readers[x] == 0
    ensures forall p, q, x :: IsFirst(Step(s, e), p, x) && IsFirst(Step(s, e), q, x) ==> p == q
  {
    var s' := Step(s, e);
    forall p, x | IsFirst(s', p, x) ensures x in s'.sessions && s'.readers[x] == 0 {
      FirstCameFrom(s, e, p, x);
      ReadersCount(s, e, x);
      if IsFirst(s, p, x) {
        SessionStays(s, e, x);
      }
      assert e.StartReader? && s.procs[e.p] == First(x) ==> IsFirst(s, e.p, x);
    }
    forall p, q, x | IsFirst(s', p, x) && IsFirst(s', q, x) ensures p == q {
      FirstCameFrom(s, e, p, x);
      FirstCameFrom(s, e, q, x);
    }
  }

  lemma StepKeepsReaders(s: State, e: Event)
    requires ListedOk(s) && ReadersOk(s) && Enabled(s, e)
    ensures ReadersOk(Step(s, e))
  {
    var s' := Step(s, e);
    FirstsAreUnread(s, e);
    forall x | x !in s'.sessions ensures s'.readers[x] == 0 {
      ReadersCount(s, e, x);
      if x in s.sessions {
        SessionStays(s, e, x);
      }
      if e.StartReader? {
        assert IsFirst(s, e.p, s.procs[e.p].session);
      }
    }
    forall x | x in s'.sessions && s'.readers[x] != 1 ensures s'.readers[x] == 0 && exists p :: IsFirst(s', p, x) {
      SessionHasReader(s, e, x);
    }
  }

  // ---------- timers ----------

  lemma TimerCameFrom(s: State, e: Event, t: nat)
    requires Enabled(s, e) && t in Step(s, e).ticking
    ensures (t in s.ticking && Step(s, e).ticking[t] == s.ticking[t])
            || (e.Detach? && t == e.timer && t !in s.timers && Step(s, e).ticking[t] == e.session)
    ensures t in s.timers ==> t in Step(s, e).timers
  {
  }

  /** A session whose field changes loses its ticking timer with it. */
  lemma TickingKeepsField(s: State, e: Event, t: nat)
    requires ListedOk(s) && TimersOk(s) && Enabled(s, e) && t in s.ticking && t in Step(s, e).ticking && !e.Detach?
    ensures s.ticking[t] in Step(s, e).sessions && Step(s, e).sessions[s.ticking[t]].timer == Some(t)
  {
    if Joins(s, e) || e.Mark? {
      StoppedKeepsField(s, e, t);
    }
  }

  lemma StoppedKeepsField(s: State, e: Event, t: nat)
    requires ListedOk(s) && TimersOk(s) && Enabled(s, e) && t in s.ticking && t in Step(s, e).ticking
    requires Joins(s, e) || e.Mark?
    ensures s.ticking[t] in Step(s, e).sessions && Step(s, e).sessions[s.ticking[t]].timer == Some(t)
  {
  }

  lemma StepKeepsTicking(s: State, e: Event, t: nat)
    requires ListedOk(s) && TimersOk(s) && Enabled(s, e) && t in Step(s, e).ticking
    ensures t in Step(s, e).timers && Step(s, e).ticking[t] in Step(s, e).sessions
    ensures Step(s, e).sessions[Step(s, e).ticking[t]].timer == Some(t)
  {
    if !e.Detach? {
      TimerCameFrom(s, e, t);
      TickingKeepsField(s, e, t);
    }
  }

  lemma FieldCameFrom(s: State, e: Event, x: nat)
    requires Enabled(s, e) && HasTimer(Step(s, e), x)
    ensures (HasTimer(s, x) && Step(s, e).sessions[x].timer == s.sessions[x].timer)
            || (e.Detach? && x == e.session && e.timer !in s.timers && Step(s, e).sessions[x].timer == Some(e.timer)
                && e.timer in Step(s, e).timers)
    ensures s.timers <= Step(s, e).timers
  {
  }

  lemma StepKeepsTimers(s: State, e: Event)
    requires ListedOk(s) && TimersOk(s) && Enabled(s, e)
    ensures TimersOk(Step(s, e))
  {
    var s' := Step(s, e);
    forall t | t in s'.ticking
      ensures t in s'.timers && s'.ticking[t] in s'.sessions && s'.sessions[s'.ticking[t]].timer == Some(t)
    {
      StepKeepsTicking(s, e, t);
    }
    forall x | x in s'.sessions && s'.sessions[x].timer.Some? ensures s'.sessions[x].timer.value in s'.timers {
      FieldCameFrom(s, e, x);
    }
    forall x, y | HasTimer(s', x) && HasTimer(s', y) && s'.sessions[x].timer == s'.sessions[y].timer ensures x == y {
      FieldCameFrom(s, e, x);
      FieldCameFrom(s, e, y);
    }
  }

  /** Only a session's own timer is stopped with it. */
  lemma StoppingSpares(s: State, x: nat, y: nat)
    requires TimersOk(s) && TimerRuns(s, x) && y in s.sessions && y != x
    ensures var t := s.sessions[x].timer.value;
      var ticking := Stopped(s.ticking, s.sessions[y].timer);
      t in ticking && ticking[t] == x
  {
    assert HasTimer(s, x) && (s.sessions[y].timer.Some? ==> HasTimer(s, y));
  }

  /** A running timer of a listed session runs on until it fires or a connection comes. */
  lemma TimerRunsOn(s: State, e: Event, x: nat)
    requires ListedOk(s) && TimersOk(s) && Enabled(s, e) && Listed(s, x) && TimerRuns(s, x) && s.sessions[x].conn.None?
    requires Listed(Step(s, e), x) && Step(s, e).sessions[x].conn.None?
    ensures TimerRuns(Step(s, e), x) || (e.Fire? && ClosingOf(Step(s, e), e.p, x))
  {
    if e.Mark? {
      assert Holds(s, e.p, s.procs[e.p].session);
      StoppingSpares(s, x, s.procs[e.p].session);
    } else if Joins(s, e) {
      JoinSpares(s, e, x);
    } else {
      OthersSpare(s, e, x);
    }
  }

  lemma JoinSpares(s: State, e: Event, x: nat)
    requires ListedOk(s) && TimersOk(s) && Enabled(s, e) && Joins(s, e) && TimerRuns(s, x)
    requires x in Step(s, e).sessions && Step(s, e).sessions[x].conn.None?
    ensures TimerRuns(Step(s, e), x)
  {
    StoppingSpares(s, x, s.table[s.procs[e.p].id]);
  }

  lemma OthersSpare(s: State, e: Event, x: nat)
    requires Enabled(s, e) && !Joins(s, e) && !e.Mark? && TimersOk(s) && TimerRuns(s, x) && s.sessions[x].conn.None?
    ensures TimerRuns(Step(s, e), x) || (e.Fire? && ClosingOf(Step(s, e), e.p, x))
  {
  }

  lemma CloseStaysUnderWay(s: State, e: Event, p: nat, x: nat)
    requires Enabled(s, e) && ClosingOf(s, p, x) && Listed(s, x) && Listed(Step(s, e), x)
    ensures ClosingOf(Step(s, e), p, x)
  {
  }

  /** A detach of a listed session's connection leaves its timer running. */
  lemma DetachArms(s: State, e: Event, x: nat)
    requires ListedOk(s) && Enabled(s, e) && Listed(s, x) && s.sessions[x].conn.Some?
    requires x in Step(s, e).sessions && Listed(Step(s, e), x) && Step(s, e).sessions[x].conn.None?
    ensures TimerRuns(Step(s, e), x)
  {
    if e.Mark? {
      assert Holds(s, e.p, s.procs[e.p].session);
    }
  }

  /** What becomes of the retention of a session that stays listed. */
  lemma StepKeepsRetention(s: State, e: Event, x: nat)
    requires ListedOk(s) && TimersOk(s) && RetentionOk(s) && Enabled(s, e)
    requires Listed(Step(s, e), x) && Step(s, e).sessions[x].conn.None?
    ensures TimerRuns(Step(s, e), x) || exists p :: ClosingOf(Step(s, e), p, x)
  {
    ListedCameFrom(s, e, x);
    if !Listed(s, x) {
      CreatedIsConnected(s, e, x);
    } else if s.sessions[x].conn.Some? {
      DetachArms(s, e, x);
    } else if TimerRuns(s, x) {
      TimerRunsOn(s, e, x);
    } else {
      var p :| ClosingOf(s, p, x);
      CloseStaysUnderWay(s, e, p, x);
    }
  }

  lemma CreatedIsConnected(s: State, e: Event, x: nat)
    requires Enabled(s, e) && x !in s.sessions && x in Step(s, e).sessions
    ensures Step(s, e).sessions[x].conn.Some?
  {
  }

  // ---------- every PTY is answered for ----------

  lemma ClosedStaysClosed(s: State, e: Event, t: nat)
    requires Enabled(s, e)
    ensures s.closes[t] <= Step(s, e).closes[t] && s.terms <= Step(s, e).terms
  {
  }

  /** The owner of a PTY keeps it, hands it on, makes a session of it, or closes it. */
  lemma OwnedIsAccounted(s: State, e: Event, p: nat, t: nat)
    requires ListedOk(s) && TermsOk(s) && Enabled(s, e) && Owns(s, p, t)
    ensures Accounted(Step(s, e), t)
  {
    var s' := Step(s, e);
    if e.Relook? && e.p == p && Joins(s, e) {
      assert Owns(s', e.q, t);
    } else if e.Relook? && e.p == p {
      assert Listed(s', e.session) && Alive(s', e.session);
    } else if e.CloseOrphan? && e.p == p {
      assert s'.closes[t] == 1;
    } else {
      assert Owns(s', p, t);
    }
  }

  lemma ListedIsAccounted(s: State, e: Event, x: nat)
    requires ListedOk(s) && Enabled(s, e) && Listed(s, x)
    ensures Accounted(Step(s, e), s.sessions[x].term)
  {
    var s' := Step(s, e);
    SessionStays(s, e, x);
    if e.Take? && s.procs[e.p].session == x {
      assert Holds(s', e.p, x);
    } else {
      StaysListed(s, e, x);
    }
    assert Alive(s', x);
  }

  lemma StaysListed(s: State, e: Event, x: nat)
    requires ListedOk(s) && Enabled(s, e) && Listed(s, x) && !(e.Take? && s.procs[e.p].session == x)
    ensures Listed(Step(s, e), x)
  {
  }

  lemma HeldIsAccounted(s: State, e: Event, p: nat, x: nat)
    requires ListedOk(s) && ClosersOk(s) && TermsOk(s) && Enabled(s, e) && Holds(s, p, x)
    ensures x in s.sessions && Accounted(Step(s, e), s.sessions[x].term)
  {
    var s' := Step(s, e);
    SessionStays(s, e, x);
    if e.CloseTerm? && e.p == p {
      assert s'.closes[s.sessions[x].term] == 1;
    } else {
      HolderGoesOn(s, e, p, x);
      assert Alive(s', x);
    }
  }

  lemma HolderGoesOn(s: State, e: Event, p: nat, x: nat)
    requires Enabled(s, e) && Holds(s, p, x) && !(e.CloseTerm? && e.p == p)
    requires s.procs[p].Taken? ==> x in s.sessions && !s.sessions[x].removed
    ensures Holds(Step(s, e), p, x)
  {
  }

  lemma StepKeepsAccounted(s: State, e: Event, t: nat)
    requires ListedOk(s) && ClosersOk(s) && TermsOk(s) && AllAccounted(s) && Enabled(s, e) && t in Step(s, e).terms
    ensures Accounted(Step(s, e), t)
  {
    if t !in s.terms {
      assert Owns(Step(s, e), e.p, t);
    } else if s.closes[t] == 1 {
      ClosedStaysClosed(s, e, t);
      StepKeepsTerms(s, e);
    } else if p :| Owns(s, p, t) {
      OwnedIsAccounted(s, e, p, t);
    } else {
      var x :| Alive(s, x) && s.sessions[x].term == t;
      if Listed(s, x) {
        ListedIsAccounted(s, e, x);
      } else {
        var p :| Holds(s, p, x);
        HeldIsAccounted(s, e, p, x);
      }
    }
  }

  lemma StepKeepsInv(s: State, e: Event)
    requires Inv(s) && Enabled(s, e)
    ensures Inv(Step(s, e))
  {
    forall t | t in Step(s, e).terms ensures Accounted(Step(s, e), t) {
      StepKeepsAccounted(s, e, t);
    }
    StepKeepsListed(s, e);
    StepKeepsClosers(s, e);
    StepKeepsTerms(s, e);
    StepKeepsReaders(s, e);
    StepKeepsTimers(s, e);
    forall x | Listed(Step(s, e), x) && Step(s, e).sessions[x].conn.None?
      ensures TimerRuns(Step(s, e), x) || exists p :: ClosingOf(Step(s, e), p, x)
    {
      StepKeepsRetention(s, e, x);
    }
  }

  lemma {:induction false} RunKeepsInv(s: State, run: seq<Event>)
    requires Inv(s) && Legal(s, run)
    ensures Inv(Run(s, run))
    decreases |run|
  {
    if run != [] {
      StepKeepsInv(s, run[0]);
      RunKeepsInv(Step(s, run[0]), run[1..]);
    }
  }

  /**
   In every reachable state each PTY has been closed once, or a process owns it, its session is in the table, or a
   process that took the session out will close it; and none has been closed twice.  Each session has or is about to
   get exactly one reader.  A session in the table is not removed; with a connection it has no timer ticking, and
   without one its own timer ticks or a close of it is under way.
   */
  lemma ReachableStatesAreConsistent(run: seq<Event>)
    requires Legal(Initial(), run)
    ensures var s := Run(Initial(), run);
      && (forall t :: s.closes[t] <= 1 && (t in s.terms ==> Accounted(s, t)))
      && (forall x :: x in s.sessions ==> s.readers[x] == 1 || (s.readers[x] == 0 && exists p :: IsFirst(s, p, x)))
      && (forall p, q, x :: IsFirst(s, p, x) && IsFirst(s, q, x) ==> p == q)
      && (forall x :: Listed(s, x) ==>
            && !s.sessions[x].removed && s.closes[s.sessions[x].term] == 0
            && (s.sessions[x].conn.Some? ==>
                  s.sessions[x].timer.None? && forall t :: t in s.ticking ==> s.ticking[t] != x)
            && (s.sessions[x].conn.None? ==> TimerRuns(s, x) || exists p :: ClosingOf(s, p, x)))
  {
    RunKeepsInv(Initial(), run);
  }

  /** `removed` is final: the store of false in acquireSession never undoes a close. */
  lemma RemovedIsFinal(s: State, e: Event, x: nat)
    requires ListedOk(s) && Enabled(s, e) && x in s.sessions && s.sessions[x].removed
    ensures x in Step(s, e).sessions && Step(s, e).sessions[x].removed && !Listed(Step(s, e), x)
  {
    JoinedAreListed(s, e);
    HoldersComeFrom(s, e);
  }

  // ---------- a session under a connection ----------

  /** The session itself ends, or its own connection lets go of it. */
  predicate Disturbs(s: State, e: Event, x: nat)
    requires Enabled(s, e)
  {
    || (e.AskClose? && e.session == x)
    || (e.Detach? && e.session == x && DetachApplies(s.sessions[x], e.conn))
  }

  predicate LeftAlone(s: State, run: seq<Event>, x: nat)
    decreases |run|
  {
    run == [] || (Enabled(s, run[0]) && !Disturbs(s, run[0], x) && LeftAlone(Step(s, run[0]), run[1..], x))
  }

  /** Listed, with a connection, and no close of it under way. */
  ghost predicate Safe(s: State, x: nat) {
    Listed(s, x) && s.sessions[x].conn.Some? && forall p :: !ClosingOf(s, p, x)
  }

  /** A new close of the session comes from its own end, or from its own timer. */
  lemma ClosingCameFrom(s: State, e: Event, p: nat, x: nat)
    requires Enabled(s, e) && ClosingOf(Step(s, e), p, x)
    ensures ClosingOf(s, p, x) || (e.AskClose? && e.session == x) || (e.Fire? && s.ticking[e.timer] == x)
  {
  }

  lemma SafeIsListed(s: State, e: Event, x: nat)
    requires ListedOk(s) && Enabled(s, e) && Safe(s, x) && !Disturbs(s, e, x)
    ensures Listed(Step(s, e), x) && Step(s, e).sessions[x].conn.Some?
  {
    if e.Take? {
      var p := e.p;
      assert ClosingOf(s, p, s.procs[p].session);
    } else if e.Mark? {
      assert Holds(s, e.p, s.procs[e.p].session);
    }
  }

  lemma SafeStays(s: State, e: Event, x: nat)
    requires ListedOk(s) && TimersOk(s) && Enabled(s, e) && Safe(s, x) && !Disturbs(s, e, x)
    ensures Safe(Step(s, e), x)
  {
    SafeIsListed(s, e, x);
    forall p ensures !ClosingOf(Step(s, e), p, x) {
      if ClosingOf(Step(s, e), p, x) {
        ClosingCameFrom(s, e, p, x);
      }
    }
  }

  lemma {:induction false} SafeForever(s: State, run: seq<Event>, x: nat)
    requires Inv(s) && LeftAlone(s, run, x) && Legal(s, run) && Safe(s, x)
    ensures Safe(Run(s, run), x)
    decreases |run|
  {
    if run != [] {
      SafeStays(s, run[0], x);
      StepKeepsInv(s, run[0]);
      SafeForever(Step(s, run[0]), run[1..], x);
    }
  }

  /** Some run, in which neither its own end nor its own connection has a part, takes the session out of the table. */
  ghost predicate CanBeTaken(s: State, x: nat) {
    exists run :: LeftAlone(s, run, x) && Legal(s, run) && !Listed(Run(s, run), x)
  }

  lemma ClosingCanTake(s: State, p: nat, x: nat)
    requires ClosingOf(s, p, x) && Listed(s, x)
    ensures CanBeTaken(s, x)
  {
    var run := [Take(p)];
    assert run[1..] == [];
    assert LeftAlone(Step(s, run[0]), [], x) && Legal(Step(s, run[0]), []);
    assert Run(s, run) == Step(s, Take(p));
  }

  /**
   The exact condition: when a connection joins a session, by either look, an old timer or earlier close can take the
   session away from it exactly when a close is already under way.
   */
  lemma JoinedSessionIsTakenExactly(s: State, e: Event)
    requires Inv(s) && Enabled(s, e) && Joins(s, e)
    ensures var x := s.table[s.procs[e.p].id];
      CanBeTaken(Step(s, e), x) <==> exists p :: ClosingOf(s, p, x)
  {
    var x, s' := s.table[s.procs[e.p].id], Step(s, e);
    JoinedIsListed(s, e);
    StepKeepsInv(s, e);
    if p :| ClosingOf(s, p, x) {
      ClosingCanTake(s', p, x);
    } else if CanBeTaken(s', x) {
      var run :| LeftAlone(s', run, x) && Legal(s', run) && !Listed(Run(s', run), x);
      SafeForever(s', run, x);
    }
  }

  lemma JoinedIsListed(s: State, e: Event)
    requires ListedOk(s) && Enabled(s, e) && Joins(s, e)
    ensures var x := s.table[s.procs[e.p].id];
      && Listed(Step(s, e), x) && Step(s, e).sessions[x].conn == Some(s.procs[e.p].conn)
      && forall p :: ClosingOf(Step(s, e), p, x) <==> ClosingOf(s, p, x)
  {
  }

  // ---------- replaced connections ----------

  /** The connection of a request that has not joined or made a session yet. */
  predicate Carries(s: State, p: nat, conn: nat) {
    && p in s.procs && (s.procs[p].Looking? || s.procs[p].Spawning? || s.procs[p].Spawned?)
    && s.procs[p].conn == conn
  }

  predicate Connected(s: State, x: nat, conn: nat) {
    x in s.sessions && s.sessions[x].conn == Some(conn)
  }

  /** Each connection is used by one request, and belongs to it or to one session. */
  ghost predicate ConnsOk(s: State) {
    && (forall p, c :: Carries(s, p, c) ==> c in s.conns)
    && (forall x, c :: Connected(s, x, c) ==> c in s.conns)
    && (forall p, q, c :: Carries(s, p, c) && Carries(s, q, c) ==> p == q)
    && (forall p, x, c :: Carries(s, p, c) && Connected(s, x, c) ==> false)
    && (forall x, y, c :: Connected(s, x, c) && Connected(s, y, c) ==> x == y)
  }

  /** A connection that was used and is nobody's any more. */
  ghost predicate Spent(s: State, conn: nat) {
    conn in s.conns && (forall p :: !Carries(s, p, conn)) && (forall x :: !Connected(s, x, conn))
  }

  lemma CarrierCameFrom(s: State, e: Event, p: nat, c: nat)
    requires Enabled(s, e) && Carries(Step(s, e), p, c)
    ensures Carries(s, p, c) || (e.Ask? && p == e.p && c == e.conn && c !in s.conns)
    ensures e.Look? && p == e.p ==> !Joins(s, e)
    ensures !(e.Relook? && p == e.p)
  {
  }

  lemma ConnectedCameFrom(s: State, e: Event, x: nat, c: nat)
    requires Enabled(s, e) && Connected(Step(s, e), x, c)
    ensures Connected(s, x, c) || (Takes(s, e) && Carries(s, e.p, c) && x == TakenBy(s, e))
  {
  }

  /** The event gives its request's connection to a session. */
  predicate Takes(s: State, e: Event) {
    Enabled(s, e) && (e.Relook? || Joins(s, e))
  }

  function TakenBy(s: State, e: Event): nat
    requires Takes(s, e)
  {
    if Joins(s, e) then s.table[s.procs[e.p].id] else e.session
  }

  lemma ConnsGrow(s: State, e: Event)
    requires Enabled(s, e)
    ensures s.conns <= Step(s, e).conns && (e.Ask? ==> e.conn in Step(s, e).conns)
  {
  }

  lemma NobodyCarriesAfter(s: State, e: Event, p: nat, c: nat)
    requires ConnsOk(s) && Takes(s, e) && Carries(s, e.p, c)
    ensures !Carries(Step(s, e), p, c)
  {
    if Carries(Step(s, e), p, c) {
      CarrierCameFrom(s, e, p, c);
    }
  }

  lemma StepKeepsConns(s: State, e: Event)
    requires ConnsOk(s) && Enabled(s, e)
    ensures ConnsOk(Step(s, e))
  {
    var s' := Step(s, e);
    ConnsGrow(s, e);
    forall p, c | Carries(s', p, c) ensures c in s'.conns {
      CarrierCameFrom(s, e, p, c);
    }
    forall x, c | Connected(s', x, c) ensures c in s'.conns {
      ConnectedCameFrom(s, e, x, c);
    }
    forall p, q, c | Carries(s', p, c) && Carries(s', q, c) ensures p == q {
      CarrierCameFrom(s, e, p, c);
      CarrierCameFrom(s, e, q, c);
    }
    forall p, x, c | Carries(s', p, c) && Connected(s', x, c) ensures false {
      CarrierOrConnected(s, e, p, x, c);
    }
    forall x, y, c | Connected(s', x, c) && Connected(s', y, c) ensures x == y {
      ConnectedCameFrom(s, e, x, c);
      ConnectedCameFrom(s, e, y, c);
    }
  }

  lemma CarrierOrConnected(s: State, e: Event, p: nat, x: nat, c: nat)
    requires ConnsOk(s) && Enabled(s, e)
    ensures !(Carries(Step(s, e), p, c) && Connected(Step(s, e), x, c))
  {
    if Connected(Step(s, e), x, c) {
      ConnectedCameFrom(s, e, x, c);
      if !Connected(s, x, c) {
        NobodyCarriesAfter(s, e, p, c);
      } else if Carries(Step(s, e), p, c) {
        CarrierCameFrom(s, e, p, c);
      }
    }
  }

  /** A join spends the connection that it replaces. */
  lemma ReplacedIsSpent(s: State, e: Event, old_: nat)
    requires ConnsOk(s) && Enabled(s, e) && Joins(s, e) && Connected(s, s.table[s.procs[e.p].id], old_)
    ensures Spent(Step(s, e), old_)
  {
    var s', x := Step(s, e), s.table[s.procs[e.p].id];
    ConnsGrow(s, e);
    assert Carries(s, e.p, s.procs[e.p].conn);
    assert s.procs[e.p].conn != old_;
    forall p ensures !Carries(s', p, old_) {
      if Carries(s', p, old_) {
        CarrierCameFrom(s, e, p, old_);
      }
    }
    forall y ensures !Connected(s', y, old_) {
      if Connected(s', y, old_) {
        ConnectedCameFrom(s, e, y, old_);
      }
    }
  }

  lemma SpentStays(s: State, e: Event, conn: nat)
    requires Enabled(s, e) && Spent(s, conn)
    ensures Spent(Step(s, e), conn)
  {
    ConnsGrow(s, e);
    forall p ensures !Carries(Step(s, e), p, conn) {
      if Carries(Step(s, e), p, conn) {
        CarrierCameFrom(s, e, p, conn);
      }
    }
    forall x ensures !Connected(Step(s, e), x, conn) {
      if Connected(Step(s, e), x, conn) {
        ConnectedCameFrom(s, e, x, conn);
      }
    }
  }

  lemma {:induction false} SpentForever(s: State, run: seq<Event>, conn: nat)
    requires Legal(s, run) && Spent(s, conn)
    ensures Spent(Run(s, run), conn)
    decreases |run|
  {
    if run != [] {
      SpentStays(s, run[0], conn);
      SpentForever(Step(s, run[0]), run[1..], conn);
    }
  }

  lemma {:induction false} RunKeepsConns(s: State, run: seq<Event>)
    requires Legal(s, run) && ConnsOk(s)
    ensures ConnsOk(Run(s, run))
    decreases |run|
  {
    if run != [] {
      StepKeepsConns(s, run[0]);
      RunKeepsConns(Step(s, run[0]), run[1..]);
    }
  }

  lemma SpentDetachesNothing(s: State, session: nat, conn: nat, timer: nat)
    requires Spent(s, conn) && Enabled(s, Detach(session, conn, timer))
    ensures Step(s, Detach(session, conn, timer)) == s
  {
    assert !Connected(s, session, conn);
    assert s.sessions[session := s.sessions[session]] == s.sessions;
  }

  /**
   A connection that a join of either kind has replaced is done with: after any further steps, a detach of it, of
   whatever session, changes nothing at all.
   */
  lemma ReplacedConnectionDetachesNothing(before: seq<Event>, e: Event, after: seq<Event>, old_: nat, session: nat,
                                          timer: nat)
    requires Legal(Initial(), before) && Enabled(Run(Initial(), before), e) && Joins(Run(Initial(), before), e)
    requires var s := Run(Initial(), before); s.procs[e.p].id in s.table && Connected(s, s.table[s.procs[e.p].id], old_)
    requires Legal(Step(Run(Initial(), before), e), after)
    requires Enabled(Run(Step(Run(Initial(), before), e), after), Detach(session, old_, timer))
    ensures var late := Run(Step(Run(Initial(), before), e), after);
      Step(late, Detach(session, old_, timer)) == late
  {
    var s := Run(Initial(), before);
    RunKeepsConns(Initial(), before);
    ReplacedIsSpent(s, e, old_);
    SpentForever(Step(s, e), after, old_);
    SpentDetachesNothing(Run(Step(s, e), after), session, old_, timer);
  }

  /** A retention timer that has already fired can close a session that a new connection has just joined. */
  lemma FiredTimerClosesRejoinedSession(s: State, id: string, timer: nat, closer: nat, p: nat, conn: nat)
    requires ListedOk(s) && id in s.table && timer in s.ticking && s.ticking[timer] == s.table[id]
    requires closer !in s.procs && p !in s.procs && closer != p && conn !in s.conns
    ensures Legal(s, [Fire(timer, closer), Ask(p, id, conn), Look(p)])
    ensures var s' := Rejoined(s, id, timer, closer, p, conn);
      && Listed(s', s.table[id]) && s'.sessions[s.table[id]].conn == Some(conn)
      && Enabled(s', Take(closer)) && Enabled(Step(s', Take(closer)), Mark(closer))
      && var s'' := Step(Step(s', Take(closer)), Mark(closer));
         id !in s''.table && s''.sessions[s.table[id]].removed
  {
    assert Listed(s, s.table[id]);
    var run := [Fire(timer, closer), Ask(p, id, conn), Look(p)];
    assert run[1..] == [Ask(p, id, conn), Look(p)] && run[1..][1..] == [Look(p)];
    assert Legal(Step(Step(s, run[0]), run[1]), [Look(p)]);
  }

  /** The timer fires, and before its close runs a connection joins. */
  function Rejoined(s: State, id: string, timer: nat, closer: nat, p: nat, conn: nat): State
    requires id in s.table && s.table[id] in s.sessions && timer in s.ticking
    requires closer !in s.procs && p !in s.procs && closer != p && conn !in s.conns
  {
    Step(Step(Step(s, Fire(timer, closer)), Ask(p, id, conn)), Look(p))
  }

  // ---------- a session that nobody comes back to ----------

  /** A detach of its own connection leaves a session without one, and with its own timer ticking. */
  lemma DetachStartsRetention(s: State, x: nat, conn: nat, timer: nat)
    requires Inv(s) && Listed(s, x) && s.sessions[x].conn == Some(conn) && timer !in s.timers
    ensures var s' := Step(s, Detach(x, conn, timer));
      && Listed(s', x) && s'.sessions[x].conn == None && s'.sessions[x].timer == Some(timer)
      && timer in s'.ticking && s'.ticking[timer] == x && s'.procs == s.procs && s'.closes == s.closes
      && s'.sessions[x].term == s.sessions[x].term && !s'.sessions[x].removed
  {
    assert !s.sessions[x].removed && s.sessions[x].timer == None;
    DetachArmsTimer(s, x, conn, timer);
  }

  lemma DetachArmsTimer(s: State, x: nat, conn: nat, timer: nat)
    requires Listed(s, x) && s.sessions[x].conn == Some(conn) && !s.sessions[x].removed && s.sessions[x].timer == None
    requires timer !in s.timers
    ensures Enabled(s, Detach(x, conn, timer))
    ensures Step(s, Detach(x, conn, timer))
         == s.(sessions := s.sessions[x := s.sessions[x].(conn := None, timer := Some(timer))],
               ticking := s.ticking[timer := x], timers := s.timers + {timer})
  {
  }

  /** What a fired timer starts: the session leaves the table, is marked, and its PTY is closed. */
  function Closure(timer: nat, closer: nat): seq<Event> {
    [Fire(timer, closer)] + ([Take(closer)] + ([Mark(closer)] + [CloseTerm(closer)]))
  }

  lemma EventThen(s: State, e: Event, rest: seq<Event>)
    requires Enabled(s, e) && Legal(Step(s, e), rest)
    ensures Legal(s, [e] + rest) && Run(s, [e] + rest) == Run(Step(s, e), rest)
  {
    assert ([e] + rest)[1..] == rest;
  }

  lemma TakenIsClosed(s: State, x: nat, closer: nat)
    requires x in s.sessions && !s.sessions[x].removed && closer in s.procs && s.procs[closer] == Taken(x)
    ensures var run := [Mark(closer)] + [CloseTerm(closer)];
      && Legal(s, run)
      && var s' := Run(s, run);
      && s'.table == s.table && x in s'.sessions && s'.sessions[x].removed && s'.sessions[x].conn == None
      && s'.sessions[x].timer == None && s'.sessions[x].term == s.sessions[x].term
      && s'.closes[s.sessions[x].term] == s.closes[s.sessions[x].term] + 1
  {
    var s1 := Step(s, Mark(closer));
    assert s1.procs[closer] == Marked(x);
    EventThen(s1, CloseTerm(closer), []);
    assert [CloseTerm(closer)] + [] == [CloseTerm(closer)];
    EventThen(s, Mark(closer), [CloseTerm(closer)]);
  }

  /**
   A session whose connection has gone and that nobody rejoins is closed by its timer: it leaves the table, is removed,
   and its PTY is closed, once.
   */
  lemma AbandonedSessionIsClosed(s: State, x: nat, conn: nat, timer: nat, closer: nat)
    requires Inv(s) && Listed(s, x) && s.sessions[x].conn == Some(conn)
    requires timer !in s.timers && closer !in s.procs
    ensures var detached := Step(s, Detach(x, conn, timer));
      && Legal(detached, Closure(timer, closer))
      && var end := Run(detached, Closure(timer, closer));
      && s.sessions[x].id !in end.table && x in end.sessions && end.sessions[x].removed
      && end.sessions[x].conn == None && end.sessions[x].timer == None && end.closes[s.sessions[x].term] == 1
  {
    DetachStartsRetention(s, x, conn, timer);
    var s1 := Step(s, Detach(x, conn, timer));
    var s2 := Step(s1, Fire(timer, closer));
    var s3 := Step(s2, Take(closer));
    FiredIsTaken(s1, x, timer, closer);
    TakenIsClosed(s3, x, closer);
    EventThen(s2, Take(closer), [Mark(closer)] + [CloseTerm(closer)]);
    EventThen(s1, Fire(timer, closer), [Take(closer)] + ([Mark(closer)] + [CloseTerm(closer)]));
  }

  lemma FiredIsTaken(s: State, x: nat, timer: nat, closer: nat)
    requires Listed(s, x) && timer in s.ticking && s.ticking[timer] == x && closer !in s.procs
    ensures Enabled(s, Fire(timer, closer)) && Enabled(Step(s, Fire(timer, closer)), Take(closer))
    ensures var s' := Step(Step(s, Fire(timer, closer)), Take(closer));
      && s'.table == s.table - {s.sessions[x].id} && s'.sessions == s.sessions && s'.closes == s.closes
      && closer in s'.procs && s'.procs[closer] == Taken(x)
  {
  }
}
