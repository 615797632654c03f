/**
 The session cache (`database/accounts/session_cache.go`) over the session and user tables
 and their writers (`database/accounts/sessions.go`).

 A load looks in the cache, queries the database outside the lock, and stores the answer;
 loads and writers interleave freely.  Times are nanoseconds.
 */
module SessionCache {
  import opened Prelude

  const SECOND := 1_000_000_000
  const MAX_ENTRIES := 4096
  const FOUND_TTL := 30 * SECOND
  const ABSENT_TTL := 10 * SECOND

  datatype Row = Row(uuid: string, expires: nat)

  datatype Db = Db(sessions: map<string, Row>, users: set<string>)

  /** The SELECT: a session counts while its user exists. */
  function Lookup(db: Db, token: string): Option<Row> {
    if token in db.sessions && db.sessions[token].uuid in db.users then Some(db.sessions[token]) else None
  }

  /** There is a session for the token, and its user is there. */
  predicate Stands(db: Db, token: string) {
    token in db.sessions && db.sessions[token].uuid in db.users
  }

  datatype Entry = Entry(answer: Option<Row>, until: nat)

  type Entries = map<string, Entry>

  /** `entries == None` is Go's nil map: it reads as empty, and storing into it panics. */
  datatype Cache = Cache(entries: Option<Entries>, revision: nat)

  function Stored(c: Cache): Entries {
    if c.entries.Some? then c.entries.value else map[]
  }

  // ---------- the critical sections ----------

  /** First section of a load: drop everything after a user write, then look. */
  function Revised(c: Cache, revision: nat): Cache {
    if c.revision != revision then Cache(Some(map[]), revision) else c
  }

  function Opened(c: Cache, revision: nat): Cache {
    if c.entries.None? || c.revision != revision then Cache(Some(map[]), revision) else c
  }

  function Hit(c: Cache, token: string, now: nat): Option<Option<Row>> {
    if token in Stored(c) && now < Stored(c)[token].until then Some(Stored(c)[token].answer) else None
  }

  function Live(es: Entries, now: nat): Entries {
    map token | token in es && now < es[token].until :: es[token]
  }

  /** Pruning makes room: expired entries go first, then only those that expire soonest. */
  ghost predicate Prunes(es: Entries, now: nat, es': Entries) {
    var live := Live(es, now);
    if |es| < MAX_ENTRIES then es' == es
    else
      && es'.Keys <= live.Keys && (forall token :: token in es' ==> es'[token] == live[token])
      && (|live| < MAX_ENTRIES ==> es' == live)
      && (|live| >= MAX_ENTRIES ==>
            && |es'| == MAX_ENTRIES - 1
            && forall d, k :: d in live && d !in es' && k in es' ==> live[d].until <= live[k].until)
  }

  datatype QueryResult = Answer(row: Option<Row>) | Failed

  function Ttl(answer: Option<Row>): nat {
    if answer.Some? then FOUND_TTL else ABSENT_TTL
  }

  /** Second section of a load, when it does not panic. */
  ghost predicate Stores(c: Cache, token: string, result: QueryResult, started: nat, revision: nat, c': Cache) {
    var c1 := Revised(c, revision);
    && c'.revision == c1.revision
    && (c1.entries.None? ==> result.Failed? && c' == c1)
    && (c1.entries.Some? ==>
          && c'.entries.Some?
          && exists es :: Prunes(c1.entries.value, started, es)
               && c'.entries.value == if result.Failed? then es
                                      else es[token := Entry(result.row, started + Ttl(result.row))])
  }

  /** Storing into the nil map. */
  predicate StorePanics(c: Cache, result: QueryResult, revision: nat) {
    !result.Failed? && c.entries.None? && c.revision == revision
  }

  class Sessions {
    var entries: Option<Entries>
    var revision: nat

    constructor ()
      ensures Abs() == Cache(None, 0)
    {
      entries, revision := None, 0;
    }

    function Abs(): Cache
      reads this
    {
      Cache(entries, revision)
    }

    method Find(token: string, now: nat, userRevision: nat) returns (hit: Option<Option<Row>>)
      modifies this
      ensures Abs() == Opened(old(Abs()), userRevision) && hit == Hit(Abs(), token, now)
    {
      if entries.None? || revision != userRevision {
        entries, revision := Some(map[]), userRevision;
      }
      if token in entries.value && now < entries.value[token].until {
        return Some(entries.value[token].answer);
      }
      return None;
    }

    method Store(token: string, result: QueryResult, started: nat, userRevision: nat)
      requires !StorePanics(Abs(), result, userRevision)
      modifies this
      ensures Stores(old(Abs()), token, result, started, userRevision, Abs())
    {
      if revision != userRevision {
        entries, revision := Some(map[]), userRevision;
      }
      if entries.Some? {
        Prune(started);
      }
      if result.Answer? {
        entries := Some(entries.value[token := Entry(result.row, started + Ttl(result.row))]);
      }
    }

    method Forget(token: string)
      modifies `entries
      ensures entries == if old(entries).Some? then Some(old(entries).value - {token}) else None
    {
      if entries.Some? {
        entries := Some(entries.value - {token});
      }
    }

    method ForgetAll()
      modifies `entries
      ensures entries == None
    {
      entries := None;
    }

    method Prune(now: nat)
      requires entries.Some?
      modifies `entries
      ensures entries.Some? && Prunes(old(entries).value, now, entries.value)
    {
      var es := entries.value;
      if |es| < MAX_ENTRIES {
        return;
      }
      es := DropExpired(es, now);
      ghost var live := es;
      while |es| >= MAX_ENTRIES
        invariant es.Keys <= live.Keys && forall token :: token in es ==> es[token] == live[token]
        invariant |live| < MAX_ENTRIES ==> es == live
        invariant |live| >= MAX_ENTRIES ==> |es| >= MAX_ENTRIES - 1
        invariant forall d, k :: d in live && d !in es && k in es ==> live[d].until <= live[k].until
        decreases |es|
      {
        var oldest := FindSoonest(es);
        ghost var before := es;
        es := es - {oldest};
        assert es.Keys == before.Keys - {oldest};
        assert |es| == |es.Keys| && |before| == |before.Keys|;
      }
      entries := Some(es);
    }
  }

  method DropExpired(es: Entries, now: nat) returns (live: Entries)
    ensures live == Live(es, now)
  {
    live := es;
    var todo := es.Keys;
    while todo != {}
      invariant todo <= live.Keys <= es.Keys
      invariant forall token :: token in live ==> live[token] == es[token]
      invariant forall token :: token in es && token !in todo ==> (token in live <==> now < es[token].until)
      decreases todo
    {
      var token :| token in todo;
      todo := todo - {token};
      if !(now < live[token].until) {
        live := live - {token};
      }
    }
  }

  method FindSoonest(es: Entries) returns (oldest: string)
    requires es != map[]
    ensures oldest in es && forall token :: token in es ==> es[oldest].until <= es[token].until
  {
    oldest :| oldest in es;
    var todo := es.Keys - {oldest};
    while todo != {}
      invariant todo <= es.Keys && oldest in es
      invariant forall token :: token in es && token !in todo ==> es[oldest].until <= es[token].until
      decreases todo
    {
      var token :| token in todo;
      todo := todo - {token};
      if es[token].until < es[oldest].until {
        oldest := token;
      }
    }
  }

  // ---------- runs ----------

  /** `Called` has read the clock, `Asked` has missed the cache. */
  datatype LoadPc = Called | Asked | Queried(result: QueryResult)

  datatype Load = Load(token: string, started: nat, pc: LoadPc)

  /** What a writer still has to do to the cache after its database write. */
  datatype Cleanup = ForgetOne(token: string) | ForgetEvery | BumpUsers | Nothing

  /** `stale` are the sessions that the write made invalid. */
  datatype Pending = Pending(cleanup: Cleanup, stale: set<string>)

  datatype State = State(db: Db, usersRevision: nat, cache: Cache, loads: map<nat, Load>,
                         pending: map<nat, Pending>, clock: nat)

  datatype Event =
    | Tick(now: nat)
    | StartLoad(p: nat, token: string)
    | Look(p: nat)
    | Query(p: nat, failed: bool)
    | Insert(p: nat)
    | WriteDb(w: nat, db: Db, cleanup: Cleanup)
    | CleanUp(w: nat)

  /** The writers: one session, many sessions, the users, or a new session. */
  predicate WriteFits(before: Db, after: Db, cleanup: Cleanup) {
    match cleanup
    case ForgetOne(token) => after == before.(sessions := before.sessions - {token})
    case ForgetEvery => after.users == before.users && after.sessions.Items <= before.sessions.Items
    case BumpUsers => after.sessions == before.sessions
    case Nothing => after.users == before.users && before.sessions.Items <= after.sessions.Items
  }

  function Invalidated(before: Db, after: Db): set<string> {
    set token | token in before.sessions && Stands(before, token)
        && !(Stands(after, token) && after.sessions[token] == before.sessions[token])
  }

  ghost predicate Next(s: State, e: Event, s': State) {
    match e
    case Tick(now) => s.clock <= now && s' == s.(clock := now)
    case StartLoad(p, token) => p !in s.loads && s' == s.(loads := s.loads[p := Load(token, s.clock, Called)])
    case Look(p) =>
      && p in s.loads && s.loads[p].pc.Called?
      && var c := Opened(s.cache, s.usersRevision);
         s' == s.(cache := c, loads := if Hit(c, s.loads[p].token, s.loads[p].started).Some? then s.loads - {p}
                                       else s.loads[p := s.loads[p].(pc := Asked)])
    case Query(p, failed) =>
      && p in s.loads && s.loads[p].pc.Asked?
      && s' == s.(loads := s.loads[p := s.loads[p].(pc :=
           Queried(if failed then Failed else Answer(Lookup(s.db, s.loads[p].token))))])
    case Insert(p) =>
      && p in s.loads && s.loads[p].pc.Queried? && s' == s.(cache := s'.cache, loads := s.loads - {p})
      && var Load(token, started, Queried(result)) := s.loads[p];
         if StorePanics(s.cache, result, s.usersRevision) then s'.cache == s.cache
         else Stores(s.cache, token, result, started, s.usersRevision, s'.cache)
    case WriteDb(w, db, cleanup) =>
      && w !in s.pending && WriteFits(s.db, db, cleanup)
      && s' == s.(db := db, pending := s.pending[w := Pending(cleanup, Invalidated(s.db, db))])
    case CleanUp(w) =>
      && w in s.pending
      && s' == match s.pending[w].cleanup
         case ForgetOne(token) =>
           s.(pending := s.pending - {w}, cache := s.cache.(entries :=
                if s.cache.entries.Some? then Some(s.cache.entries.value - {token}) else None))
         case ForgetEvery => s.(pending := s.pending - {w}, cache := s.cache.(entries := None))
         case BumpUsers => s.(pending := s.pending - {w}, usersRevision := s.usersRevision + 1)
         case Nothing => s.(pending := s.pending - {w})
  }

  ghost predicate Start(s: State) {
    s.cache == Cache(None, 0) && s.loads == map[] && s.pending == map[]
  }

  ghost predicate IsRun(states: seq<State>, events: seq<Event>) {
    && |states| == |events| + 1 && Start(states[0])
    && forall i :: 0 <= i < |events| ==> Next(states[i], events[i], states[i + 1])
  }

  /** The answer an event gives its caller, and when that caller started. */
  datatype Reply = Reply(token: string, started: nat, answer: Option<Row>)

  function ReplyOf(s: State, e: Event): Option<Reply> {
    match e
    case Look(p) =>
      if p in s.loads && s.loads[p].pc.Called? then
        var Load(token, started, _) := s.loads[p];
        var hit := Hit(Opened(s.cache, s.usersRevision), token, started);
        if hit.Some? then Some(Reply(token, started, hit.value)) else None
      else None
    case Insert(p) =>
      if p in s.loads && s.loads[p].pc.Queried? && s.loads[p].pc.result.Answer?
         && !StorePanics(s.cache, s.loads[p].pc.result, s.usersRevision)
      then Some(Reply(s.loads[p].token, s.loads[p].started, s.loads[p].pc.result.row)) else None
    case _ => None
  }

  // ---------- bounded staleness ----------

  /** The database gave this answer at some state of the run so far, no earlier than `since`. */
  ghost predicate Given(states: seq<State>, n: nat, token: string, answer: Option<Row>, since: int) {
    exists m :: 0 <= m <= n < |states| && Lookup(states[m].db, token) == answer && since <= states[m].clock
  }

  lemma GivenStays(states: seq<State>, n: nat, token: string, answer: Option<Row>, since: int)
    requires Given(states, n, token, answer, since) && n + 1 < |states|
    ensures Given(states, n + 1, token, answer, since)
  {
    var m :| 0 <= m <= n < |states| && Lookup(states[m].db, token) == answer && since <= states[m].clock;
    assert 0 <= m <= n + 1 < |states|;
  }

  ghost predicate Backed(states: seq<State>, n: nat)
    requires n < |states|
  {
    var s := states[n];
    && (forall token :: token in Stored(s.cache) ==>
          var e := Stored(s.cache)[token];
          Given(states, n, token, e.answer, e.until - Ttl(e.answer)))
    && (forall p :: p in s.loads ==> s.loads[p].started <= s.clock)
    && (forall p :: p in s.loads && s.loads[p].pc.Queried? && s.loads[p].pc.result.Answer? ==>
          Given(states, n, s.loads[p].token, s.loads[p].pc.result.row, s.loads[p].started))
  }

  lemma StepAt(states: seq<State>, events: seq<Event>, n: nat)
    requires IsRun(states, events) && n < |events|
    ensures Next(states[n], events[n], states[n + 1])
  {
  }

  lemma {:induction false} EveryAnswerIsBacked(states: seq<State>, events: seq<Event>, n: nat)
    requires IsRun(states, events) && n < |states|
    ensures Backed(states, n)
  {
    if n > 0 {
      EveryAnswerIsBacked(states, events, n - 1);
      StepAt(states, events, n - 1);
      BackedNext(states, events[n - 1], n - 1);
    }
  }

  lemma BackedNext(states: seq<State>, e: Event, n: nat)
    requires n + 1 < |states| && Backed(states, n) && Next(states[n], e, states[n + 1])
    ensures Backed(states, n + 1)
  {
    var s, s' := states[n], states[n + 1];
    forall token | token in Stored(s'.cache)
      ensures Given(states, n + 1, token, Stored(s'.cache)[token].answer,
                    Stored(s'.cache)[token].until - Ttl(Stored(s'.cache)[token].answer))
    {
      var x := Stored(s'.cache)[token];
      EntryOrigin(s, e, s', token);
      if token in Stored(s.cache) && Stored(s.cache)[token] == x {
        GivenStays(states, n, token, x.answer, x.until - Ttl(x.answer));
      } else {
        GivenStays(states, n, token, x.answer, s.loads[e.p].started);
      }
    }
    forall p | p in s'.loads && s'.loads[p].pc.Queried? && s'.loads[p].pc.result.Answer?
      ensures Given(states, n + 1, s'.loads[p].token, s'.loads[p].pc.result.row, s'.loads[p].started)
    {
      if e.Query? && p == e.p {
        assert Given(states, n, s.loads[p].token, Lookup(s.db, s.loads[p].token), s.loads[p].started);
      }
      GivenStays(states, n, s'.loads[p].token, s'.loads[p].pc.result.row, s'.loads[p].started);
    }
  }

  /** An entry after an event was there before, or is the one a load just stored. */
  lemma EntryOrigin(s: State, e: Event, s': State, token: string)
    requires Next(s, e, s') && token in Stored(s'.cache)
    ensures (token in Stored(s.cache) && Stored(s'.cache)[token] == Stored(s.cache)[token])
            || (e.Insert? && e.p in s.loads && s.loads[e.p].pc.Queried? && s.loads[e.p].pc.result.Answer?
                && s.loads[e.p].token == token
                && var row := s.loads[e.p].pc.result.row;
                   Stored(s'.cache)[token] == Entry(row, s.loads[e.p].started + Ttl(row)))
  {
  }

  /**
   Bounded staleness, under any interleaving: a call that started at time t gets an answer the database gave
   later than t - 30 s, or t - 10 s when the answer is that there is no such session.
   */
  lemma AnswersAreRecent(states: seq<State>, events: seq<Event>, n: nat)
    requires IsRun(states, events) && n < |events| && ReplyOf(states[n], events[n]).Some?
    ensures var Reply(token, started, answer) := ReplyOf(states[n], events[n]).value;
            Given(states, n, token, answer, started - Ttl(answer) + 1)
  {
    EveryAnswerIsBacked(states, events, n);
    var s := states[n];
    var Reply(token, started, answer) := ReplyOf(s, events[n]).value;
    if events[n].Look? {
      var e := Stored(s.cache)[token];
      var m :| 0 <= m <= n && Lookup(states[m].db, token) == answer && e.until - Ttl(answer) <= states[m].clock;
      assert started - Ttl(answer) + 1 <= states[m].clock;
    } else {
      var m :| 0 <= m <= n && Lookup(states[m].db, token) == answer && started <= states[m].clock;
      assert started - Ttl(answer) + 1 <= states[m].clock;
    }
  }

  /** The row stood in the sessions, and its user among the users, at some state so far no earlier than `since`. */
  ghost predicate Stood(states: seq<State>, n: nat, token: string, row: Row, since: int) {
    exists m :: 0 <= m <= n < |states| && since <= states[m].clock
      && token in states[m].db.sessions && states[m].db.sessions[token] == row && row.uuid in states[m].db.users
  }

  /** At some state so far, no earlier than `since`, there was no session for the token, or not its user. */
  ghost predicate WasAway(states: seq<State>, n: nat, token: string, since: int) {
    exists m :: 0 <= m <= n < |states| && since <= states[m].clock
      && (token !in states[m].db.sessions || states[m].db.sessions[token].uuid !in states[m].db.users)
  }

  /**
   What an answer says of the tables: a session that is handed out stood there, with its user, less than 30 s before
   the call; and when there is said to be none, there was none, or no user of it, less than 10 s before.
   */
  lemma AnswersStood(states: seq<State>, events: seq<Event>, n: nat)
    requires IsRun(states, events) && n < |events| && ReplyOf(states[n], events[n]).Some?
    ensures var Reply(token, started, answer) := ReplyOf(states[n], events[n]).value;
      && (answer.Some? ==> Stood(states, n, token, answer.value, started - 30_000_000_000 + 1))
      && (answer.None? ==> WasAway(states, n, token, started - 10_000_000_000 + 1))
  {
    AnswersAreRecent(states, events, n);
    var Reply(token, started, answer) := ReplyOf(states[n], events[n]).value;
    var m :| 0 <= m <= n && Lookup(states[m].db, token) == answer && started - Ttl(answer) + 1 <= states[m].clock;
    assert answer.None? ==> !Stands(states[m].db, token);
  }

  /** A call that misses the cache answers what the tables hold at its query, if its query and its store succeed. */
  lemma MissAnswersFromTables(s: State, s': State, p: nat)
    requires Next(s, Query(p, false), s')
    ensures s'.loads[p].pc.Queried? && (StorePanics(s'.cache, s'.loads[p].pc.result, s'.usersRevision) ||
      var Load(token, started, _) := s.loads[p];
      ReplyOf(s', Insert(p)) ==
        Some(Reply(token, started,
                   if token in s.db.sessions && s.db.sessions[token].uuid in s.db.users then Some(s.db.sessions[token])
                   else None)))
  {
  }

  // ---------- revocation ----------

  ghost predicate BeingRevoked(s: State, token: string) {
    exists w :: w in s.pending && token in s.pending[w].stale
  }

  /** The event is a write that makes the session invalid. */
  predicate Invalidates(s: State, e: Event, token: string) {
    e.WriteDb? && token in Invalidated(s.db, e.db)
  }

  /** Load p has found a session for the token and has not stored it yet. */
  predicate HasFound(s: State, p: nat, token: string) {
    && p in s.loads && s.loads[p].token == token
    && s.loads[p].pc.Queried? && s.loads[p].pc.result.Answer? && s.loads[p].pc.result.row.Some?
  }

  /** Event i invalidates the session after load p found it, and the load goes on up to state n. */
  ghost predicate OvertakenSince(states: seq<State>, events: seq<Event>, i: nat, n: nat, p: nat, token: string) {
    && i < n < |states| && i < |events|
    && Invalidates(states[i], events[i], token) && HasFound(states[i], p, token)
    && forall m :: i <= m <= n ==> p in states[m].loads && states[m].loads[p] == states[i].loads[p]
  }

  ghost predicate Overtaken(states: seq<State>, events: seq<Event>, n: nat, p: nat, token: string) {
    exists i: nat :: OvertakenSince(states, events, i, n, p, token)
  }

  /** Some event before n stored, or returned, what a load of the token had found before a write made it invalid. */
  ghost predicate StoredLate(states: seq<State>, events: seq<Event>, n: nat, token: string) {
    exists i: nat, k: nat, p: nat :: k < n <= |events| && OvertakenSince(states, events, i, k, p, token)
        && events[k] == Insert(p)
  }

  /** What a writer still has to forget covers what it made invalid. */
  ghost predicate PendingOk(s: State) {
    && s.cache.revision <= s.usersRevision
    && (forall w :: w in s.pending && s.pending[w].cleanup.ForgetOne? ==>
          s.pending[w].stale <= {s.pending[w].cleanup.token})
    && (forall w :: w in s.pending && s.pending[w].cleanup.Nothing? ==> s.pending[w].stale == {})
  }

  /** An entry that says there is a session is right, about to be forgotten, or was stored late. */
  ghost predicate EntryRight(states: seq<State>, events: seq<Event>, n: nat, token: string)
    requires n < |states|
  {
    var s := states[n];
    s.cache.revision == s.usersRevision && token in Stored(s.cache) && Stored(s.cache)[token].answer.Some? ==>
      || Lookup(s.db, token) == Stored(s.cache)[token].answer
      || BeingRevoked(s, token)
      || StoredLate(states, events, n, token)
  }

  /** What a load has found is still right, or was overtaken. */
  ghost predicate LoadRight(states: seq<State>, events: seq<Event>, n: nat, p: nat, token: string)
    requires n < |states|
  {
    var s := states[n];
    HasFound(s, p, token) ==>
      Lookup(s.db, token) == s.loads[p].pc.result.row || Overtaken(states, events, n, p, token)
  }

  lemma StepKeepsPending(s: State, e: Event, s': State)
    requires PendingOk(s) && Next(s, e, s')
    ensures PendingOk(s')
  {
    if e.WriteDb? {
      WriteInvalidates(s.db, e.db, e.cleanup);
    }
  }

  lemma WriteInvalidates(before: Db, after: Db, cleanup: Cleanup)
    requires WriteFits(before, after, cleanup)
    ensures cleanup.ForgetOne? ==> Invalidated(before, after) <= {cleanup.token}
    ensures cleanup.Nothing? ==> Invalidated(before, after) == {}
  {
    if cleanup.Nothing? {
      forall token | token in before.sessions ensures Lookup(after, token) == Lookup(before, token) {
        assert (token, before.sessions[token]) in before.sessions.Items;
      }
    }
  }

  lemma LoadStaysRight(states: seq<State>, events: seq<Event>, n: nat, p: nat, token: string)
    requires n < |events| && n + 1 < |states| && Next(states[n], events[n], states[n + 1])
    requires LoadRight(states, events, n, p, token)
    ensures LoadRight(states, events, n + 1, p, token)
  {
    var s, e, s' := states[n], events[n], states[n + 1];
    if HasFound(s', p, token) && Lookup(s'.db, token) != s'.loads[p].pc.result.row {
      assert HasFound(s, p, token) && s'.loads[p] == s.loads[p];
      if Lookup(s.db, token) == s.loads[p].pc.result.row {
        assert Invalidates(s, e, token);
        assert OvertakenSince(states, events, n, n + 1, p, token);
      } else {
        var i: nat :| OvertakenSince(states, events, i, n, p, token);
        assert OvertakenSince(states, events, i, n + 1, p, token);
      }
    }
  }

  lemma StoredLateStays(states: seq<State>, events: seq<Event>, n: nat, token: string)
    requires StoredLate(states, events, n, token) && n < |events|
    ensures StoredLate(states, events, n + 1, token)
  {
    var i: nat, k: nat, p: nat :| k < n <= |events| && OvertakenSince(states, events, i, k, p, token)
        && events[k] == Insert(p);
    assert k < n + 1 <= |events|;
  }

  /** The event is a load storing this answer. */
  predicate JustStored(s: State, e: Event, token: string, answer: Option<Row>) {
    e.Insert? && HasFound(s, e.p, token) && answer == s.loads[e.p].pc.result.row
  }

  lemma EntryStaysRight(states: seq<State>, events: seq<Event>, n: nat, token: string)
    requires n < |events| && n + 1 < |states| && Next(states[n], events[n], states[n + 1])
    requires PendingOk(states[n]) && EntryRight(states, events, n, token)
    requires forall p :: LoadRight(states, events, n, p, token)
    ensures EntryRight(states, events, n + 1, token)
  {
    var s, e, s' := states[n], events[n], states[n + 1];
    if s'.cache.revision == s'.usersRevision && token in Stored(s'.cache) && Stored(s'.cache)[token].answer.Some? {
      EntryOrigin(s, e, s', token);
      if JustStored(s, e, token, Stored(s'.cache)[token].answer) {
        NewEntryIsRight(states, events, n, token);
      } else {
        OldEntryStaysRight(states, events, n, token);
      }
    }
  }

  lemma NewEntryIsRight(states: seq<State>, events: seq<Event>, n: nat, token: string)
    requires n < |events| && n + 1 < |states| && Next(states[n], events[n], states[n + 1])
    requires events[n].Insert? && HasFound(states[n], events[n].p, token)
    requires LoadRight(states, events, n, events[n].p, token)
    requires token in Stored(states[n + 1].cache)
    requires Stored(states[n + 1].cache)[token].answer == states[n].loads[events[n].p].pc.result.row
    ensures EntryRight(states, events, n + 1, token)
  {
    var p := events[n].p;
    if Overtaken(states, events, n, p, token) {
      var i: nat :| OvertakenSince(states, events, i, n, p, token);
      assert n < n + 1 <= |events| && events[n] == Insert(p);
    }
  }

  lemma OldEntryStaysRight(states: seq<State>, events: seq<Event>, n: nat, token: string)
    requires n < |events| && n + 1 < |states| && Next(states[n], events[n], states[n + 1])
    requires PendingOk(states[n]) && EntryRight(states, events, n, token)
    requires states[n + 1].cache.revision == states[n + 1].usersRevision
    requires token in Stored(states[n].cache) && token in Stored(states[n + 1].cache)
    requires Stored(states[n + 1].cache)[token] == Stored(states[n].cache)[token]
    requires Stored(states[n].cache)[token].answer.Some?
    requires !JustStored(states[n], events[n], token, Stored(states[n].cache)[token].answer)
    ensures EntryRight(states, events, n + 1, token)
  {
    var s, e, s' := states[n], events[n], states[n + 1];
    RevisionWasCurrent(s, e, s', token);
    if StoredLate(states, events, n, token) {
      StoredLateStays(states, events, n, token);
    } else {
      EntryFollows(s, e, s', token);
    }
  }

  /** An entry survives only in a cache that is up to date with the users. */
  lemma RevisionWasCurrent(s: State, e: Event, s': State, token: string)
    requires PendingOk(s) && Next(s, e, s') && s'.cache.revision == s'.usersRevision
    requires token in Stored(s.cache) && token in Stored(s'.cache) && Stored(s'.cache)[token] == Stored(s.cache)[token]
    requires Stored(s.cache)[token].answer.Some? && !JustStored(s, e, token, Stored(s.cache)[token].answer)
    ensures s.cache.revision == s.usersRevision
  {
  }

  lemma EntryFollows(s: State, e: Event, s': State, token: string)
    requires PendingOk(s) && Next(s, e, s')
             && s.cache.revision == s.usersRevision == s'.cache.revision == s'.usersRevision
    requires token in Stored(s.cache) && token in Stored(s'.cache) && Stored(s'.cache)[token] == Stored(s.cache)[token]
    requires Stored(s.cache)[token].answer.Some?
    requires Lookup(s.db, token) == Stored(s.cache)[token].answer || BeingRevoked(s, token)
    ensures Lookup(s'.db, token) == Stored(s.cache)[token].answer || BeingRevoked(s', token)
  {
    if BeingRevoked(s, token) {
      var w :| w in s.pending && token in s.pending[w].stale;
      if !(e.CleanUp? && e.w == w) {
        assert w in s'.pending && s'.pending[w] == s.pending[w];
      }
    } else if e.WriteDb? && Lookup(s'.db, token) != Lookup(s.db, token) {
      assert token in s'.pending[e.w].stale;
    }
  }

  lemma {:induction false} AlwaysRight(states: seq<State>, events: seq<Event>, n: nat, token: string)
    requires IsRun(states, events) && n < |states|
    ensures PendingOk(states[n]) && EntryRight(states, events, n, token)
    ensures forall p :: LoadRight(states, events, n, p, token)
  {
    if n > 0 {
      AlwaysRight(states, events, n - 1, token);
      assert Next(states[n - 1], events[n - 1], states[n - 1 + 1]);
      StepKeepsPending(states[n - 1], events[n - 1], states[n]);
      EntryStaysRight(states, events, n - 1, token);
      forall p ensures LoadRight(states, events, n, p, token) {
        LoadStaysRight(states, events, n - 1, p, token);
      }
    }
  }

  /** Event n hands out a session that is revoked: it is gone, and the writer has finished. */
  ghost predicate HandsOutRevoked(states: seq<State>, events: seq<Event>, n: nat, token: string) {
    && n < |events| && n < |states|
    && ReplyOf(states[n], events[n]).Some? && ReplyOf(states[n], events[n]).value.token == token
    && ReplyOf(states[n], events[n]).value.answer.Some?
    && !Stands(states[n].db, token) && !BeingRevoked(states[n], token)
  }

  /**
   A revoked session, or one of a removed user, is handed out only if a load of its token found it before the write
   that made it invalid, and stored or returned it afterwards.
   */
  lemma RevokedOnlyIfOvertaken(states: seq<State>, events: seq<Event>, n: nat, token: string)
    requires IsRun(states, events) && HandsOutRevoked(states, events, n, token)
    ensures StoredLate(states, events, n + 1, token)
  {
    AlwaysRight(states, events, n, token);
    var s, e := states[n], events[n];
    assert Next(s, e, states[n + 1]);
    if e.Look? {
      StoredLateStays(states, events, n, token);
    } else {
      assert HasFound(s, e.p, token) && LoadRight(states, events, n, e.p, token);
      var i: nat :| OvertakenSince(states, events, i, n, e.p, token);
      assert n < n + 1 <= |events| && events[n] == Insert(e.p);
    }
  }

  /** No write makes the session invalid while a load of its token has found it and not stored it yet. */
  ghost predicate NeverOvertaken(states: seq<State>, events: seq<Event>, n: nat, token: string)
    requires n <= |events| && n <= |states|
  {
    forall i, p :: 0 <= i < n && Invalidates(states[i], events[i], token) ==> !HasFound(states[i], p, token)
  }

  /** So in runs where that never happens to a token, its session is not handed out once its writer has finished. */
  lemma RevokedIsNeverReturned(states: seq<State>, events: seq<Event>, n: nat, token: string)
    requires IsRun(states, events) && n <= |events| && NeverOvertaken(states, events, n, token)
    ensures !HandsOutRevoked(states, events, n, token)
  {
    if HandsOutRevoked(states, events, n, token) {
      RevokedOnlyIfOvertaken(states, events, n, token);
      LateNeedsOvertaking(states, events, n, token);
    }
  }

  lemma LateNeedsOvertaking(states: seq<State>, events: seq<Event>, n: nat, token: string)
    requires |states| == |events| + 1 && n < |events| && StoredLate(states, events, n + 1, token)
    ensures !NeverOvertaken(states, events, n, token)
  {
    var i: nat, k: nat, p: nat :| k < n + 1 <= |events| && OvertakenSince(states, events, i, k, p, token)
                                  && events[k] == Insert(p);
    assert Invalidates(states[i], events[i], token) && HasFound(states[i], p, token);
  }

  // ---------- exactly when a revoked session can be handed out ----------

  /** The event's caller gets a session for the token. */
  predicate HandsOut(s: State, e: Event, token: string) {
    ReplyOf(s, e).Some? && ReplyOf(s, e).value.token == token && ReplyOf(s, e).value.answer.Some?
  }

  /** Some load has found a session for the token and has not stored it yet. */
  ghost predicate InFlight(s: State, token: string) {
    exists p :: HasFound(s, p, token)
  }

  /** A time that some call may look with: now, or the reading of a call that has not looked yet. */
  ghost predicate LooksAt(s: State, token: string, now: nat) {
    now == s.clock || exists p :: p in s.loads && s.loads[p] == Load(token, now, Called)
  }

  /** The cache is up to date with the users and holds a session for the token, alive for some caller. */
  ghost predicate Cached(s: State, token: string) {
    && s.cache.revision == s.usersRevision && token in Stored(s.cache) && Stored(s.cache)[token].answer.Some?
    && exists now: nat :: LooksAt(s, token, now) && now < Stored(s.cache)[token].until
  }

  /** The run goes on from a state, and the session stays gone. */
  ghost predicate GoesOnGone(s: State, states: seq<State>, events: seq<Event>, token: string) {
    && |states| == |events| + 1 && states[0] == s
    && (forall i :: 0 <= i < |events| ==> Next(states[i], events[i], states[i + 1]))
    && (forall i :: 0 <= i < |states| ==> !Stands(states[i].db, token))
  }

  /** Some way to go on, with the session gone all the time, hands it out. */
  ghost predicate CanBeHandedOut(s: State, token: string) {
    exists states: seq<State>, events: seq<Event>, e ::
      GoesOnGone(s, states, events, token) && CanHandOut(states[|events|], e, token)
  }

  /** The event is possible, and its caller gets a session for the token. */
  ghost predicate CanHandOut(s: State, e: Event, token: string) {
    HandsOut(s, e, token) && exists s' :: Next(s, e, s')
  }

  lemma NothingToHandOut(s: State, e: Event, s': State, token: string)
    requires PendingOk(s) && Next(s, e, s') && !Stands(s.db, token)
    requires !InFlight(s, token) && !Cached(s, token)
    ensures !InFlight(s', token) && !Cached(s', token) && !HandsOut(s, e, token)
  {
    forall p ensures !HasFound(s', p, token) {
      assert !HasFound(s, p, token);
    }
    if Cached(s', token) {
      EntryOrigin(s, e, s', token);
      assert e.Insert? ==> !HasFound(s, e.p, token);
      RevisionWasCurrent(s, e, s', token);
      var now: nat :| LooksAt(s', token, now) && now < Stored(s'.cache)[token].until;
      LooksBefore(s, e, s', token, now);
    }
    if HandsOut(s, e, token) {
      HandedOutFrom(s, e, token);
    }
  }

  /** A caller could have looked no later before the event. */
  lemma LooksBefore(s: State, e: Event, s': State, token: string, now: nat)
    requires Next(s, e, s') && LooksAt(s', token, now)
    ensures exists before: nat :: LooksAt(s, token, before) && before <= now
  {
    assert LooksAt(s, token, s.clock);
    if now != s'.clock {
      var p :| p in s'.loads && s'.loads[p] == Load(token, now, Called);
      if !e.StartLoad? || e.p != p {
        assert p in s.loads && s.loads[p] == Load(token, now, Called);
        assert LooksAt(s, token, now);
      }
    }
  }

  lemma HandedOutFrom(s: State, e: Event, token: string)
    requires PendingOk(s) && HandsOut(s, e, token)
    ensures InFlight(s, token) || Cached(s, token)
  {
    if e.Insert? {
      assert HasFound(s, e.p, token);
    } else {
      assert LooksAt(s, token, s.loads[e.p].started);
    }
  }

  lemma {:induction false} NothingIsHandedOut(s: State, states: seq<State>, events: seq<Event>, token: string, n: nat)
    requires GoesOnGone(s, states, events, token) && PendingOk(s) && !InFlight(s, token) && !Cached(s, token)
    requires n < |states|
    ensures PendingOk(states[n]) && !InFlight(states[n], token) && !Cached(states[n], token)
    decreases n
  {
    if n > 0 {
      NothingIsHandedOut(s, states, events, token, n - 1);
      assert Next(states[n - 1], events[n - 1], states[n - 1 + 1]);
      StepKeepsPending(states[n - 1], events[n - 1], states[n]);
      NothingToHandOut(states[n - 1], events[n - 1], states[n], token);
    }
  }

  // The other way: what can hand it out does.

  lemma CanAtOnce(s: State, e: Event, token: string)
    requires !Stands(s.db, token) && CanHandOut(s, e, token)
    ensures CanBeHandedOut(s, token)
  {
    CanBy(s, [s], [], e, token);
  }

  lemma CanAfter(s: State, e: Event, s': State, token: string)
    requires !Stands(s.db, token) && Next(s, e, s') && CanBeHandedOut(s', token)
    ensures CanBeHandedOut(s, token)
  {
    var states: seq<State>, events: seq<Event>, last :|
      GoesOnGone(s', states, events, token) && CanHandOut(states[|events|], last, token);
    EarlierGoesOn(s, e, s', states, events, token);
    OneLater(s, states, e, events, |events|);
    CanBy(s, [s] + states, [e] + events, last, token);
  }

  lemma CanBy(s: State, states: seq<State>, events: seq<Event>, e: Event, token: string)
    requires GoesOnGone(s, states, events, token) && CanHandOut(states[|events|], e, token)
    ensures CanBeHandedOut(s, token)
  {
  }

  lemma OneLater(s: State, states: seq<State>, e: Event, events: seq<Event>, k: nat)
    requires k < |states|
    ensures ([s] + states)[k + 1] == states[k] && |[e] + events| == |events| + 1
    ensures k < |events| ==> ([e] + events)[k + 1] == events[k]
  {
  }

  lemma EarlierGoesOn(s: State, e: Event, s': State, states: seq<State>, events: seq<Event>, token: string)
    requires Next(s, e, s') && !Stands(s.db, token) && GoesOnGone(s', states, events, token)
    ensures GoesOnGone(s, [s] + states, [e] + events, token)
  {
    forall i | 0 <= i < |[e] + events| ensures Next(([s] + states)[i], ([e] + events)[i], ([s] + states)[i + 1]) {
      OneLater(s, states, e, events, i);
      if i > 0 {
        OneLater(s, states, e, events, i - 1);
        assert Next(states[i - 1], events[i - 1], states[i - 1 + 1]);
      }
    }
  }

  lemma FreshLoad(s: State) returns (p: nat)
    ensures p !in s.loads
  {
    p := FreshKey(s.loads.Keys);
  }

  lemma FreshKey(keys: set<nat>) returns (p: nat)
    ensures forall k :: k in keys ==> k < p
  {
    if keys == {} {
      p := 0;
    } else {
      var k :| k in keys;
      var q := FreshKey(keys - {k});
      p := if q <= k then k + 1 else q;
      forall j | j in keys ensures j < p {
        assert j == k || j in keys - {k};
      }
    }
  }

  lemma CachedCan(s: State, token: string)
    requires !Stands(s.db, token) && Cached(s, token)
    ensures CanBeHandedOut(s, token)
  {
    var now: nat :| LooksAt(s, token, now) && now < Stored(s.cache)[token].until;
    if now == s.clock {
      var p := FreshLoad(s);
      var s' := s.(loads := s.loads[p := Load(token, s.clock, Called)]);
      assert Next(s, StartLoad(p, token), s');
      LookHandsOut(s', p, token);
      CanAfter(s, StartLoad(p, token), s', token);
    } else {
      var p :| p in s.loads && s.loads[p] == Load(token, now, Called);
      LookHandsOut(s, p, token);
    }
  }

  lemma LookHandsOut(s: State, p: nat, token: string)
    requires !Stands(s.db, token) && p in s.loads && s.loads[p].pc.Called? && s.loads[p].token == token
    requires s.cache.revision == s.usersRevision && token in Stored(s.cache) && Stored(s.cache)[token].answer.Some?
    requires s.loads[p].started < Stored(s.cache)[token].until
    ensures CanBeHandedOut(s, token)
  {
    var s' := s.(loads := s.loads - {p});
    assert Next(s, Look(p), s') && CanHandOut(s, Look(p), token);
    CanAtOnce(s, Look(p), token);
  }

  lemma InFlightCan(s: State, token: string)
    requires !Stands(s.db, token) && InFlight(s, token)
    ensures CanBeHandedOut(s, token)
  {
    var p :| HasFound(s, p, token);
    if StorePanics(s.cache, s.loads[p].pc.result, s.usersRevision) {
      var q := FreshLoad(s);
      var s1 := s.(loads := s.loads[q := Load(token, s.clock, Called)]);
      var s2 := s1.(cache := Opened(s.cache, s.usersRevision), loads := s1.loads[q := Load(token, s.clock, Asked)]);
      assert Next(s, StartLoad(q, token), s1) && Next(s1, Look(q), s2);
      assert HasFound(s2, p, token);
      InsertHandsOut(s2, p, token);
      CanAfter(s1, Look(q), s2, token);
      CanAfter(s, StartLoad(q, token), s1, token);
    } else {
      InsertHandsOut(s, p, token);
    }
  }

  lemma InsertHandsOut(s: State, p: nat, token: string)
    requires !Stands(s.db, token) && HasFound(s, p, token)
    requires !StorePanics(s.cache, s.loads[p].pc.result, s.usersRevision)
    ensures CanBeHandedOut(s, token)
  {
    var Load(_, started, Queried(result)) := s.loads[p];
    var es := SomePruning(Stored(Revised(s.cache, s.usersRevision)), started);
    var c := Cache(Some(es[token := Entry(result.row, started + Ttl(result.row))]), s.usersRevision);
    assert Stores(s.cache, token, result, started, s.usersRevision, c);
    assert Next(s, Insert(p), s.(cache := c, loads := s.loads - {p}));
    CanAtOnce(s, Insert(p), token);
  }

  lemma SomePruning(es: Entries, now: nat) returns (es': Entries)
    ensures Prunes(es, now, es')
  {
    var live := Live(es, now);
    es' := if |es| < MAX_ENTRIES then es else live;
    if |es| >= MAX_ENTRIES && |live| >= MAX_ENTRIES {
      es' := DropSoonest(live, MAX_ENTRIES - 1);
    }
  }

  /** Some n entries, such that none that is left out is alive longer than one that is kept. */
  lemma DropSoonest(live: Entries, n: nat) returns (kept: Entries)
    requires n <= |live|
    ensures kept.Keys <= live.Keys && |kept| == n && forall token :: token in kept ==> kept[token] == live[token]
    ensures forall d, k :: d in live && d !in kept && k in kept ==> live[d].until <= live[k].until
    decreases |live|
  {
    if |live| == n {
      kept := live;
    } else {
      var x := Soonest(live, live.Keys);
      var rest := live - {x};
      assert rest.Keys == live.Keys - {x} && |rest.Keys| == |rest| && |live.Keys| == |live|;
      kept := DropSoonest(rest, n);
    }
  }

  lemma Soonest(live: Entries, keys: set<string>) returns (x: string)
    requires keys <= live.Keys && keys != {}
    ensures x in keys && forall k :: k in keys ==> live[x].until <= live[k].until
    decreases |keys|
  {
    x :| x in keys;
    var others := keys - {x};
    if others != {} {
      var y := Soonest(live, others);
      forall k | k in keys ensures k == x || live[y].until <= live[k].until {
        assert k == x || k in others;
      }
      if live[y].until < live[x].until {
        x := y;
      }
    }
  }

  /**
   The exact condition: in every reachable state without the session, it can still be handed out, while it stays gone,
   exactly when some load has found it and not stored it yet, or the cache still holds it for some caller.
   */
  lemma RevokedCanBeHandedOutExactly(states: seq<State>, events: seq<Event>, n: nat, token: string)
    requires IsRun(states, events) && n < |states| && !Stands(states[n].db, token)
    ensures CanBeHandedOut(states[n], token) <==> InFlight(states[n], token) || Cached(states[n], token)
  {
    var s := states[n];
    AlwaysRight(states, events, n, token);
    if InFlight(s, token) {
      InFlightCan(s, token);
    } else if Cached(s, token) {
      CachedCan(s, token);
    } else if CanBeHandedOut(s, token) {
      var later: seq<State>, more: seq<Event>, e :|
        GoesOnGone(s, later, more, token) && CanHandOut(later[|more|], e, token);
      NothingIsHandedOut(s, later, more, token, |more|);
      HandedOutFrom(later[|more|], e, token);
    }
  }

  /** The writer that finishes at this event has revoked the session: by itself, with all others, or with its user. */
  predicate Revokes(s: State, e: Event, token: string) {
    && e.CleanUp? && e.w in s.pending
    && (s.pending[e.w].cleanup == ForgetOne(token) || s.pending[e.w].cleanup.ForgetEvery?
        || s.pending[e.w].cleanup.BumpUsers?)
  }

  /**
   So a revocation is immediate exactly when no load of the token has found the session and not stored it yet at the
   moment its writer finishes.
   */
  lemma RevocationIsImmediateExactly(states: seq<State>, events: seq<Event>, n: nat, token: string)
    requires IsRun(states, events) && n < |events| && Revokes(states[n], events[n], token)
    requires !Stands(states[n + 1].db, token)
    ensures !CanBeHandedOut(states[n + 1], token) <==> !InFlight(states[n + 1], token)
  {
    AlwaysRight(states, events, n, token);
    assert Next(states[n], events[n], states[n + 1]);
    assert !Cached(states[n + 1], token);
    RevokedCanBeHandedOutExactly(states, events, n + 1, token);
  }

  /** While a session is gone, no load can find it: what has found it did so before. */
  lemma {:induction false} FoundBefore(s: State, states: seq<State>, events: seq<Event>, token: string, n: nat, p: nat)
    requires GoesOnGone(s, states, events, token) && n < |states| && HasFound(states[n], p, token)
    ensures HasFound(s, p, token)
    decreases n
  {
    if n > 0 {
      assert Next(states[n - 1], events[n - 1], states[n - 1 + 1]);
      assert !Stands(states[n - 1].db, token);
      FoundBefore(s, states, events, token, n - 1, p);
    }
  }

  /** The write and the bump of the users' revision that end a user, with the session gone from the write on. */
  ghost predicate RemovesUser(states: seq<State>, events: seq<Event>, i: nat, n: nat, token: string) {
    && i < n < |events| && |states| == |events| + 1 && events[i].WriteDb? && events[i].cleanup.BumpUsers?
    && events[n] == CleanUp(events[i].w)
    && token in states[i].db.sessions && states[i].db.sessions[token].uuid !in events[i].db.users
    && events[i].w in states[n].pending
    && states[n].pending[events[i].w].cleanup.BumpUsers?
    && forall m :: i < m <= n + 1 ==> !Stands(states[m].db, token)
  }

  /**
   When the removal of a user has finished, no session of that user is handed out any more, unless a load had found it
   before the user was removed.
   */
  lemma RemovedUserIsGone(states: seq<State>, events: seq<Event>, i: nat, n: nat, token: string)
    requires IsRun(states, events) && RemovesUser(states, events, i, n, token)
    ensures CanBeHandedOut(states[n + 1], token) ==> InFlight(states[i], token)
  {
    RevocationIsImmediateExactly(states, events, n, token);
    if CanBeHandedOut(states[n + 1], token) {
      var p :| HasFound(states[n + 1], p, token);
      FoundBeforeRemoval(states, events, i, n, token, p);
    }
  }

  lemma FoundBeforeRemoval(states: seq<State>, events: seq<Event>, i: nat, n: nat, token: string, p: nat)
    requires IsRun(states, events) && RemovesUser(states, events, i, n, token) && HasFound(states[n + 1], p, token)
    ensures HasFound(states[i], p, token)
  {
    var later, more := states[i + 1..n + 2], events[i + 1..n + 1];
    forall k | 0 <= k < |more| ensures Next(later[k], more[k], later[k + 1]) {
      assert Next(states[i + 1 + k], events[i + 1 + k], states[i + 1 + k + 1]);
    }
    assert GoesOnGone(states[i + 1], later, more, token);
    FoundBefore(states[i + 1], later, more, token, n - i, p);
    assert Next(states[i], events[i], states[i + 1]);
  }

  // A run in which a record queried before a delete is stored after it.

  const ROW := Row("user", 0)
  const OT_DB0 := Db(map["t" := ROW], {"user"})
  const OT_DB1 := Db(map[], {"user"})
  const OT_ENTRIES: Entries := map["t" := Entry(Some(ROW), FOUND_TTL)]
  const OT_EVENTS := [StartLoad(1, "t"), Look(1), Query(1, false), WriteDb(2, OT_DB1, ForgetOne("t")), CleanUp(2),
                      Insert(1), StartLoad(3, "t"), Look(3)]
  const OT_EMPTY: Entries := map[]

  function OvertakenStates(): seq<State> {
    var s0 := State(OT_DB0, 0, Cache(None, 0), map[], map[], 0);
    var s1 := s0.(loads := map[1 := Load("t", 0, Called)]);
    var s2 := s1.(cache := Cache(Some(OT_EMPTY), 0), loads := map[1 := Load("t", 0, Asked)]);
    var s3 := s2.(loads := map[1 := Load("t", 0, Queried(Answer(Some(ROW))))]);
    var s4 := s3.(db := OT_DB1, pending := map[2 := Pending(ForgetOne("t"), Invalidated(OT_DB0, OT_DB1))]);
    var s5 := s4.(pending := map[]);
    var s6 := s5.(cache := Cache(Some(OT_ENTRIES), 0), loads := map[]);
    [s0, s1, s2, s3, s4, s5, s6, s6.(loads := map[3 := Load("t", 0, Called)]), s6]
  }

  lemma OvertakenFirstHalf()
    ensures var st := OvertakenStates();
      Start(st[0]) && Next(st[0], OT_EVENTS[0], st[1]) && Next(st[1], OT_EVENTS[1], st[2])
          && Next(st[2], OT_EVENTS[2], st[3]) && Next(st[3], OT_EVENTS[3], st[4])
  {
    assert OT_DB1 == OT_DB0.(sessions := OT_DB0.sessions - {"t"});
  }

  lemma OvertakenSecondHalf()
    ensures var st := OvertakenStates();
      Next(st[4], OT_EVENTS[4], st[5]) && Next(st[5], OT_EVENTS[5], st[6])
  {
    var gone: map<nat, Pending> := map[2 := Pending(ForgetOne("t"), Invalidated(OT_DB0, OT_DB1))];
    assert gone - {2} == map[] && OT_EMPTY - {"t"} == OT_EMPTY;
    assert Prunes(OT_EMPTY, 0, OT_EMPTY) && OT_ENTRIES == OT_EMPTY["t" := Entry(Some(ROW), 0 + Ttl(Some(ROW)))];
  }

  lemma OvertakenEnd()
    ensures var st := OvertakenStates();
      && Next(st[6], OT_EVENTS[6], st[7]) && Next(st[7], OT_EVENTS[7], st[8])
      && ReplyOf(st[7], OT_EVENTS[7]) == Some(Reply("t", 0, Some(ROW)))
      && st[7].pending == map[] && !Stands(st[7].db, "t")
  {
    var third: map<nat, Load> := map[3 := Load("t", 0, Called)];
    assert third - {3} == map[];
  }

  lemma OvertakenRun()
    ensures IsRun(OvertakenStates(), OT_EVENTS)
  {
    OvertakenFirstHalf();
    OvertakenSecondHalf();
    OvertakenEnd();
    var st := OvertakenStates();
    forall i | 0 <= i < |OT_EVENTS| ensures Next(st[i], OT_EVENTS[i], st[i + 1]) {
      assert i == 0 || i == 1 || i == 2 || i == 3 || i == 4 || i == 5 || i == 6 || i == 7;
    }
  }

  /** Without that condition revocation is not immediate. */
  lemma RevocationCanBeOvertaken()
    ensures exists states: seq<State>, events: seq<Event>, n: nat ::
      && IsRun(states, events) && n < |events| && states[n].pending == map[]
      && ReplyOf(states[n], events[n]).Some?
      && !Stands(states[n].db, ReplyOf(states[n], events[n]).value.token)
      && ReplyOf(states[n], events[n]).value.answer.Some?
  {
    OvertakenRun();
    OvertakenEnd();
    assert |OT_EVENTS| == 8 && |OvertakenStates()| == 9;
  }

  // ---------- the nil map ----------

  /** Event i empties the cache by making its map nil. */
  predicate MakesNil(s: State, e: Event) {
    e.CleanUp? && e.w in s.pending && s.pending[e.w].cleanup.ForgetEvery?
  }

  /** Event i makes a new map where there is none. */
  predicate MakesMap(s: State, e: Event) {
    e.Look? || (e.Insert? && s.cache.revision != s.usersRevision)
  }

  /** The map has been nil since event k of the run. */
  ghost predicate NilSince(states: seq<State>, events: seq<Event>, k: nat, n: nat)
    requires |states| == |events| + 1 && n < |states|
  {
    k < n && MakesNil(states[k], events[k]) && forall j :: k < j < n ==> !MakesMap(states[j], events[j])
  }

  lemma NilAfter(s: State, e: Event, s': State)
    requires Next(s, e, s')
    ensures s'.cache.entries.None? <==> MakesNil(s, e) || (s.cache.entries.None? && !MakesMap(s, e))
  {
  }

  lemma NilSinceNext(states: seq<State>, events: seq<Event>, i: nat, n: nat, n': nat)
    requires |states| == |events| + 1 && i < n < |events| && n' == n + 1
    ensures (exists k :: i < k && NilSince(states, events, k, n')) <==>
            MakesNil(states[n], events[n])
            || (!MakesMap(states[n], events[n]) && exists k :: i < k && NilSince(states, events, k, n))
  {
    if MakesNil(states[n], events[n]) {
      assert NilSince(states, events, n, n');
    } else if k :| i < k && NilSince(states, events, k, n') {
      assert NilSince(states, events, k, n);
    }
    if k :| i < k && NilSince(states, events, k, n) {
      if !MakesMap(states[n], events[n]) {
        assert NilSince(states, events, k, n');
      }
    }
  }

  lemma {:induction false} NilMapHistory(states: seq<State>, events: seq<Event>, i: nat, n: nat)
    requires IsRun(states, events) && i < n < |states| && events[i].Look?
    ensures states[n].cache.entries.None? <==> exists k :: i < k && NilSince(states, events, k, n)
    decreases n
  {
    assert Next(states[n - 1], events[n - 1], states[n - 1 + 1]);
    NilAfter(states[n - 1], events[n - 1], states[n]);
    if n - 1 > i {
      NilMapHistory(states, events, i, n - 1);
      NilSinceNext(states, events, i, n - 1, n);
    }
  }

  /**
   The second section of a load panics exactly when a bulk revocation has made the map nil since its first
   section, nothing has made a new map since, and the users have not changed.
   */
  lemma StorePanicsExactly(states: seq<State>, events: seq<Event>, i: nat, n: nat)
    requires IsRun(states, events) && i < n < |events| && events[i].Look? && events[n].Insert?
    requires events[n].p == events[i].p && events[n].p in states[n].loads && states[n].loads[events[n].p].pc.Queried?
    ensures StorePanics(states[n].cache, states[n].loads[events[n].p].pc.result, states[n].usersRevision)
            <==> && !states[n].loads[events[n].p].pc.result.Failed?
                 && states[n].cache.revision == states[n].usersRevision
                 && exists k :: i < k && NilSince(states, events, k, n)
  {
    NilMapHistory(states, events, i, n);
  }

  // ---------- the bound ----------

  /** The cache never holds more than 4096 entries. */
  lemma {:induction false} CacheIsBounded(states: seq<State>, events: seq<Event>, n: nat)
    requires IsRun(states, events) && n < |states|
    ensures |Stored(states[n].cache)| <= MAX_ENTRIES
  {
    if n > 0 {
      CacheIsBounded(states, events, n - 1);
      assert Next(states[n - 1], events[n - 1], states[n - 1 + 1]);
      BoundKept(states[n - 1], events[n - 1], states[n]);
    }
  }

  lemma BoundKept(s: State, e: Event, s': State)
    requires Next(s, e, s') && |Stored(s.cache)| <= MAX_ENTRIES
    ensures |Stored(s'.cache)| <= MAX_ENTRIES
  {
    if e.Insert? {
      var Load(token, started, Queried(result)) := s.loads[e.p];
      if !StorePanics(s.cache, result, s.usersRevision) {
        StoreBounded(s.cache, token, result, started, s.usersRevision, s'.cache);
      }
    } else {
      NoInsertShrinks(s, e, s');
      SubsetSize(Stored(s'.cache).Keys, Stored(s.cache).Keys);
      assert |Stored(s'.cache).Keys| == |Stored(s'.cache)| && |Stored(s.cache).Keys| == |Stored(s.cache)|;
    }
  }

  lemma NoInsertShrinks(s: State, e: Event, s': State)
    requires Next(s, e, s') && !e.Insert?
    ensures Stored(s'.cache).Keys <= Stored(s.cache).Keys
  {
  }

  lemma StoreBounded(c: Cache, token: string, result: QueryResult, started: nat, revision: nat, c': Cache)
    requires Stores(c, token, result, started, revision, c') && |Stored(c)| <= MAX_ENTRIES
    ensures |Stored(c')| <= MAX_ENTRIES
  {
    var c1 := Revised(c, revision);
    if c1.entries.Some? {
      var es :| Prunes(c1.entries.value, started, es)
                && c'.entries.value == if result.Failed? then es
                                       else es[token := Entry(result.row, started + Ttl(result.row))];
      PruneMakesRoom(c1.entries.value, started, es);
      if result.Answer? {
        OneMore(es, token, Entry(result.row, started + Ttl(result.row)));
      }
    }
  }

  lemma OneMore(es: Entries, token: string, entry: Entry)
    ensures |es[token := entry]| <= |es| + 1
  {
    var es' := es[token := entry];
    assert es'.Keys == es.Keys + {token};
    assert |es.Keys| == |es| && |es'.Keys| == |es'|;
  }

  /**
   After pruning there is room for one entry.  Entries that stay are as they were; what was dropped expires no later
   than anything that stays, and a live entry is dropped only to make just that room.
   */
  lemma PruneMakesRoom(es: Entries, now: nat, es': Entries)
    requires Prunes(es, now, es')
    ensures |es'| < 4096 && forall token :: token in es' ==> token in es && es'[token] == es[token]
    ensures es' != es ==> forall token :: token in es' ==> now < es'[token].until
    ensures forall d, k :: d in es && d !in es' && k in es' ==> es[d].until <= es[k].until
    ensures (exists d :: d in es && d !in es' && now < es[d].until) ==> |es'| == 4095
  {
    var live := Live(es, now);
    forall d, k | d in es && d !in es' && k in es' ensures es[d].until <= es[k].until {
      assert k in live;
      if d in live {
        assert live[d] == es[d] && live[k] == es[k];
      }
    }
  }

  /** A stored answer is what callers get whose reading is less than its time to live after that of the load. */
  lemma StoredAnswerIsUsed(s: State, p: nat, s': State, now: nat)
    requires Next(s, Insert(p), s') && s.loads[p].pc.result.Answer?
    requires !StorePanics(s.cache, s.loads[p].pc.result, s.usersRevision)
    ensures var row, started := s.loads[p].pc.result.row, s.loads[p].started;
      && (now < started + (if row.Some? then 30_000_000_000 else 10_000_000_000) ==>
            Hit(Opened(s'.cache, s'.usersRevision), s.loads[p].token, now) == Some(row))
      && (now >= started + (if row.Some? then 30_000_000_000 else 10_000_000_000) ==>
            Hit(Opened(s'.cache, s'.usersRevision), s.loads[p].token, now) == None)
  {
  }
}
