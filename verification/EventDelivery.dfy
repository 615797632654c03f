/**
 Event delivery over the POST fallback (`agent/server/websocket.go`).

 The report loop and the pull loop share a list of acknowledgements and a bounded, timed
 set of seen event ids, against a server that may redeliver.  Times are nanoseconds.
 */
module EventDelivery {
  import opened Prelude

  const SEEN_TTL := 10 * 60 * 1_000_000_000
  const SEEN_LIMIT := 4096

  type Seen = map<string, nat>

  // ---------- the seen set ----------

  function Fresh(seen: Seen, now: nat): Seen {
    map id | id in seen && now - seen[id] <= SEEN_TTL :: seen[id]
  }

  predicate Oldest(seen: Seen, id: string) {
    id in seen && forall k :: k in seen ==> seen[id] <= seen[k]
  }

  /** One marking: which of several equally old ids makes room is left open, as a Go map iteration leaves it. */
  ghost predicate Marks(seen: Seen, id: string, now: nat, isNew: bool, seen': Seen) {
    var live := Fresh(seen, now);
    if id == "" then isNew && seen' == seen
    else if id in live then !isNew && seen' == live
    else && isNew
         && (|live| < SEEN_LIMIT ==> seen' == live[id := now])
         && (|live| >= SEEN_LIMIT ==> exists victim :: Oldest(live, victim) && seen' == (live - {victim})[id := now])
  }

  class EventInbox {
    var acks: seq<string>
    var seen: Seen

    constructor ()
      ensures acks == [] && seen == map[]
    {
      acks, seen := [], map[];
    }

    method DropExpired(now: nat)
      modifies `seen
      ensures seen == Fresh(old(seen), now)
    {
      var todo := seen.Keys;
      while todo != {}
        invariant todo <= seen.Keys <= old(seen).Keys
        invariant forall id :: id in seen ==> seen[id] == old(seen)[id]
        invariant forall id :: id in old(seen) && id !in todo ==> (id in seen <==> now - old(seen)[id] <= SEEN_TTL)
        decreases todo
      {
        var id :| id in todo;
        todo := todo - {id};
        if now - seen[id] > SEEN_TTL {
          seen := seen - {id};
        }
      }
    }

    method FindOldest() returns (oldestID: string)
      requires seen != map[] && "" !in seen
      ensures Oldest(seen, oldestID)
    {
      oldestID := "";
      var oldest := 0;
      var todo := seen.Keys;
      while todo != {}
        invariant todo <= seen.Keys
        invariant oldestID == "" ==> todo == seen.Keys
        invariant oldestID != "" ==> oldestID in seen && oldest == seen[oldestID]
                                     && forall k :: k in seen && k !in todo ==> oldest <= seen[k]
        decreases todo
      {
        var id :| id in todo;
        todo := todo - {id};
        if oldestID == "" || seen[id] < oldest {
          oldestID, oldest := id, seen[id];
        }
      }
      var k :| k in seen;
    }

    method MarkSeen(id: string, now: nat) returns (isNew: bool)
      requires "" !in seen
      modifies `seen
      ensures Marks(old(seen), id, now, isNew, seen) && "" !in seen
    {
      if id == "" {
        return true;
      }
      DropExpired(now);
      if id in seen {
        return false;
      }
      if |seen| >= SEEN_LIMIT {
        var victim := FindOldest();
        seen := seen - {victim};
      }
      seen := seen[id := now];
      return true;
    }

    method Snapshot() returns (ids: seq<string>)
      ensures ids == acks
    {
      return acks;
    }

    /** Filters the list in place. */
    method Clear(sent: seq<string>)
      modifies `acks
      ensures acks == Without(old(acks), sent)
    {
      if |sent| == 0 {
        WithoutNothing(acks);
        return;
      }
      var sentSet := set id | id in sent;
      var remaining: seq<string> := [];
      for i := 0 to |acks|
        invariant acks == old(acks)
        invariant Without(acks, sent) == remaining + Without(acks[i..], sent)
      {
        WithoutFrom(acks, sent, i, remaining);
        if acks[i] !in sentSet {
          remaining := remaining + [acks[i]];
        }
      }
      acks := remaining;
    }

    method AddAck(id: string)
      modifies `acks
      ensures acks == old(acks) + (if id == "" then [] else [id])
    {
      if id == "" {
        return;
      }
      acks := acks + [id];
    }

    /** Marks an event and dispatches it if it is new; `accepted` is what parsing its payload says. */
    method ProcessEvent(id: string, accepted: bool, now: nat) returns (handled: bool, acted: bool)
      requires "" !in seen
      modifies `seen
      ensures "" !in seen
      ensures exists isNew ::
        Marks(old(seen), id, now, isNew, seen) && handled == (!isNew || accepted) && acted == (isNew && accepted)
    {
      var isNew := MarkSeen(id, now);
      if !isNew {
        return true, false;
      }
      return accepted, accepted;
    }
  }

  function Without(acks: seq<string>, sent: seq<string>): (r: seq<string>)
    ensures forall id :: id in r <==> id in acks && id !in sent
  {
    if acks == [] then []
    else if acks[0] in sent then Without(acks[1..], sent)
    else [acks[0]] + Without(acks[1..], sent)
  }

  lemma WithoutFrom(acks: seq<string>, sent: seq<string>, i: nat, before: seq<string>)
    requires i < |acks|
    ensures before + Without(acks[i..], sent)
         == (if acks[i] in sent then before else before + [acks[i]]) + Without(acks[i + 1..], sent)
  {
    assert acks[i..][1..] == acks[i + 1..];
  }

  lemma {:induction false} WithoutNothing(acks: seq<string>)
    ensures Without(acks, []) == acks
  {
    if acks != [] {
      WithoutNothing(acks[1..]);
    }
  }

  // ---------- at most once ----------

  datatype Mark = Mark(id: string, now: nat, isNew: bool)

  /** A history of markings from the empty set, on a strictly increasing clock. */
  ghost predicate History(states: seq<Seen>, marks: seq<Mark>) {
    && |states| == |marks| + 1 && states[0] == map[]
    && (forall i :: 0 <= i < |marks| ==> Marks(states[i], marks[i].id, marks[i].now, marks[i].isNew, states[i + 1]))
    && (forall i, j :: 0 <= i < j < |marks| ==> marks[i].now < marks[j].now)
  }

  /** Ids newly seen strictly between two markings, other than the first one's. */
  ghost function NewBetween(marks: seq<Mark>, i: nat, j: nat): set<string>
    requires i < j <= |marks|
  {
    set k | i < k < j && marks[k].isNew && marks[k].id != "" && marks[k].id != marks[i].id :: marks[k].id
  }

  ghost predicate RecordedAt(marks: seq<Mark>, n: nat, id: string, t: nat) {
    exists i :: 0 <= i < n <= |marks| && marks[i] == Mark(id, t, true)
  }

  /** Every entry of the set was put there by a marking of that id at that time; the set stays bounded. */
  lemma {:induction false} EntriesAreRecorded(states: seq<Seen>, marks: seq<Mark>, n: nat)
    requires History(states, marks) && n <= |marks|
    ensures "" !in states[n] && |states[n]| <= SEEN_LIMIT
    ensures forall id :: id in states[n] ==> RecordedAt(marks, n, id, states[n][id])
  {
    if n > 0 {
      EntriesAreRecorded(states, marks, n - 1);
      var m := marks[n - 1];
      assert Marks(states[n - 1], m.id, m.now, m.isNew, states[n - 1 + 1]);
      forall id | id in states[n] ensures RecordedAt(marks, n, id, states[n][id]) {
        if m.isNew && id == m.id {
          assert marks[n - 1] == Mark(id, states[n][id], true);
        } else {
          assert RecordedAt(marks, n - 1, id, states[n - 1][id]);
        }
      }
      MarkKeepsBound(states[n - 1], m, states[n]);
    }
  }

  lemma MarkKeepsBound(seen: Seen, m: Mark, seen': Seen)
    requires Marks(seen, m.id, m.now, m.isNew, seen') && |seen| <= SEEN_LIMIT
    ensures |seen'| <= SEEN_LIMIT
  {
    var live := Fresh(seen, m.now);
    assert live.Keys <= seen.Keys;
    SubsetSize(live.Keys, seen.Keys);
    assert |live.Keys| == |live| && |seen.Keys| == |seen|;
    if m.id != "" && m.id !in live {
      if |live| < SEEN_LIMIT {
        assert seen'.Keys == live.Keys + {m.id};
      } else {
        var victim :| Oldest(live, victim) && seen' == (live - {victim})[m.id := m.now];
        assert seen'.Keys == live.Keys - {victim} + {m.id};
      }
    }
  }

  /** The reasons for which an id may have left the set: time, or as many newer ids as the set holds. */
  ghost predicate MayForget(marks: seq<Mark>, i: nat, n: nat)
    requires i < n <= |marks|
  {
    || (n - 1 > i && marks[n - 1].now - marks[i].now > SEEN_TTL)
    || |NewBetween(marks, i, n)| >= SEEN_LIMIT
  }

  lemma NewBetweenGrows(marks: seq<Mark>, i: nat, n: nat)
    requires i < n < |marks|
    ensures NewBetween(marks, i, n) <= NewBetween(marks, i, n + 1)
    ensures |NewBetween(marks, i, n)| <= |NewBetween(marks, i, n + 1)|
  {
    SubsetSize(NewBetween(marks, i, n), NewBetween(marks, i, n + 1));
  }

  /** When the entry of marking i is evicted, the set is full of newer ids. */
  lemma EvictionNeedsNewerIds(states: seq<Seen>, marks: seq<Mark>, i: nat, n: nat)
    requires History(states, marks) && i < n < |marks| && marks[i].id != "" && marks[i].isNew
    requires marks[n].isNew && marks[n].id != "" && marks[n].id != marks[i].id
    requires Oldest(Fresh(states[n], marks[n].now), marks[i].id) && |Fresh(states[n], marks[n].now)| >= SEEN_LIMIT
    requires states[n][marks[i].id] == marks[i].now && marks[n].id !in Fresh(states[n], marks[n].now)
    ensures |NewBetween(marks, i, n + 1)| >= SEEN_LIMIT
  {
    var live := Fresh(states[n], marks[n].now);
    EntriesAreRecorded(states, marks, n);
    var newer := live.Keys - {marks[i].id} + {marks[n].id};
    forall id | id in newer ensures id in NewBetween(marks, i, n + 1) {
      if id != marks[n].id {
        assert RecordedAt(marks, n, id, states[n][id]);
        var k :| 0 <= k < n && marks[k] == Mark(id, states[n][id], true);
        assert marks[i].now <= marks[k].now;
      }
    }
    SubsetSize(newer, NewBetween(marks, i, n + 1));
  }

  lemma {:induction false} RememberedOrMayForget(states: seq<Seen>, marks: seq<Mark>, i: nat, n: nat)
    requires History(states, marks) && i < n <= |marks| && marks[i].id != "" && marks[i].isNew
    ensures (marks[i].id in states[n] && states[n][marks[i].id] == marks[i].now) || MayForget(marks, i, n)
    decreases n
  {
    var id := marks[i].id;
    assert Marks(states[n - 1], marks[n - 1].id, marks[n - 1].now, marks[n - 1].isNew, states[n - 1 + 1]);
    if n > i + 1 {
      RememberedOrMayForget(states, marks, i, n - 1);
      NewBetweenGrows(marks, i, n - 1);
      if MayForget(marks, i, n - 1) {
        assert marks[n - 2].now < marks[n - 1].now;
      } else {
        RememberedOneStep(states, marks, i, n - 1);
      }
    }
  }

  lemma RememberedOneStep(states: seq<Seen>, marks: seq<Mark>, i: nat, n: nat)
    requires History(states, marks) && i < n < |marks| && marks[i].id != "" && marks[i].isNew
    requires marks[i].id in states[n] && states[n][marks[i].id] == marks[i].now
    ensures (marks[i].id in states[n + 1] && states[n + 1][marks[i].id] == marks[i].now) || MayForget(marks, i, n + 1)
  {
    var id, m := marks[i].id, marks[n];
    var live := Fresh(states[n], m.now);
    assert Marks(states[n], m.id, m.now, m.isNew, states[n + 1]);
    assert marks[i].now < m.now;
    if m.id != "" && id in live && m.id !in live && |live| >= SEEN_LIMIT {
      var victim :| Oldest(live, victim) && states[n + 1] == (live - {victim})[m.id := m.now];
      if victim == id {
        EvictionNeedsNewerIds(states, marks, i, n);
      }
    }
  }

  /**
   At most once: two markings that both let the same event through are more than ten minutes apart, or at
   least 4096 other ids were newly seen between them.
   */
  lemma AtMostOnce(states: seq<Seen>, marks: seq<Mark>, i: nat, j: nat)
    requires History(states, marks) && i < j < |marks|
    requires marks[i].id == marks[j].id != "" && marks[i].isNew && marks[j].isNew
    ensures marks[j].now - marks[i].now > SEEN_TTL || |NewBetween(marks, i, j)| >= SEEN_LIMIT
  {
    RememberedOrMayForget(states, marks, i, j);
    assert Marks(states[j], marks[j].id, marks[j].now, marks[j].isNew, states[j + 1]);
    if MayForget(marks, i, j) && j - 1 > i {
      assert marks[j - 1].now < marks[j].now;
    }
  }

  /** Marking i is the last one before j that was new for its id. */
  predicate LastNew(marks: seq<Mark>, i: nat, j: nat) {
    && i < j < |marks| && marks[i].isNew && marks[i].id == marks[j].id != ""
    && forall k :: i < k < j && marks[k].id == marks[i].id ==> !marks[k].isNew
  }

  /** An entry for the id is the one that this marking made. */
  lemma {:induction false} EntryIsTheLast(states: seq<Seen>, marks: seq<Mark>, i: nat, j: nat, n: nat)
    requires History(states, marks) && LastNew(marks, i, j) && i < n <= j
    ensures marks[i].id in states[n] ==> states[n][marks[i].id] == marks[i].now
    decreases n
  {
    var m := n - 1;
    assert Marks(states[m], marks[m].id, marks[m].now, marks[m].isNew, states[m + 1]);
    if m > i {
      EntryIsTheLast(states, marks, i, j, m);
    }
  }

  /** While its entry is there, so are those of all ids that were newly seen since: they are younger. */
  lemma {:induction false} NewerStay(states: seq<Seen>, marks: seq<Mark>, i: nat, n: nat)
    requires History(states, marks) && i < n <= |marks| && marks[i].isNew && marks[i].id != ""
    requires marks[i].id in states[n] && states[n][marks[i].id] == marks[i].now
    ensures forall id :: id in NewBetween(marks, i, n) ==> id in states[n] && marks[i].now < states[n][id]
    decreases n
  {
    var m := n - 1;
    if m > i {
      EntryWasThere(states, marks, i, m);
      NewerStay(states, marks, i, m);
      forall id | id in NewBetween(marks, i, n) ensures id in states[n] && marks[i].now < states[n][id] {
        NewerStaysOne(states, marks, i, m, id);
      }
    }
  }

  lemma EntryWasThere(states: seq<Seen>, marks: seq<Mark>, i: nat, n: nat)
    requires History(states, marks) && i < n < |marks|
    requires marks[i].id in states[n + 1] && states[n + 1][marks[i].id] == marks[i].now
    ensures marks[i].id in states[n] && states[n][marks[i].id] == marks[i].now
    ensures marks[n].id != "" ==> marks[i].id in Fresh(states[n], marks[n].now)
  {
    assert Marks(states[n], marks[n].id, marks[n].now, marks[n].isNew, states[n + 1]);
    assert marks[i].now < marks[n].now;
  }

  lemma NewerStaysOne(states: seq<Seen>, marks: seq<Mark>, i: nat, n: nat, id: string)
    requires History(states, marks) && i < n < |marks|
    requires marks[i].id in states[n + 1] && states[n + 1][marks[i].id] == marks[i].now
    requires id in NewBetween(marks, i, n + 1)
    requires id in NewBetween(marks, i, n) ==> id in states[n] && marks[i].now < states[n][id]
    ensures id in states[n + 1] && marks[i].now < states[n + 1][id]
  {
    var m := marks[n];
    EntryWasThere(states, marks, i, n);
    assert Marks(states[n], m.id, m.now, m.isNew, states[n + 1]);
    assert marks[i].now < m.now;
    if id !in NewBetween(marks, i, n) {
      assert id == m.id && m.isNew;
    }
  }

  /**
   The exact condition: a marking of an id lets the event through again exactly when the last one that did was more than
   ten minutes before, or at least 4096 other ids were newly seen since.
   */
  lemma NewAgainExactly(states: seq<Seen>, marks: seq<Mark>, i: nat, j: nat)
    requires History(states, marks) && LastNew(marks, i, j)
    ensures marks[j].isNew <==>
            marks[j].now - marks[i].now > SEEN_TTL || |NewBetween(marks, i, j)| >= SEEN_LIMIT
  {
    if marks[j].isNew {
      AtMostOnce(states, marks, i, j);
    } else {
      var id := marks[i].id;
      assert Marks(states[j], marks[j].id, marks[j].now, marks[j].isNew, states[j + 1]);
      EntryIsTheLast(states, marks, i, j, j);
      NewerStay(states, marks, i, j);
      EntriesAreRecorded(states, marks, j);
      var all := NewBetween(marks, i, j) + {id};
      assert |all| == |NewBetween(marks, i, j)| + 1;
      SubsetSize(all, states[j].Keys);
      assert |states[j].Keys| == |states[j]|;
    }
  }

  /** What processing an event reports, from its marking and from the parsing of its payload. */
  function Handled(m: Mark, accepted: bool): bool {
    !m.isNew || accepted
  }

  /** A malformed event is acknowledged when it comes a second time while it is remembered. */
  lemma MalformedIsAckedOnRedelivery(states: seq<Seen>, marks: seq<Mark>, i: nat, j: nat)
    requires History(states, marks) && i < j < |marks| && marks[i].id == marks[j].id != "" && marks[i].isNew
    requires marks[j].now - marks[i].now <= SEEN_TTL && |NewBetween(marks, i, j)| < SEEN_LIMIT
    ensures !Handled(marks[i], false) && Handled(marks[j], false)
  {
    if marks[j].isNew {
      AtMostOnce(states, marks, i, j);
    }
  }

  // ---------- acknowledgements ----------

  datatype Delivered = Delivered(id: string, accepted: bool)

  /** Where a report or pull loop is. */
  datatype LoopPc =
    | Idle
    | InFlight(sent: seq<string>)
    | Answered(sent: seq<string>, events: seq<Delivered>)
    | Processing(events: seq<Delivered>)
    | Acking(id: string, events: seq<Delivered>)

  /** `added`, `posted` and `handled` record the ids ever acked, carried by a successful POST, and handled. */
  datatype State = State(acks: seq<string>, seen: Seen, loops: map<nat, LoopPc>,
                         added: set<string>, posted: set<string>, handled: set<string>)

  datatype Step =
    | Snapshot(p: nat)
    | PostFails(p: nat)
    | PostSucceeds(p: nat, events: seq<Delivered>)
    | ClearSent(p: nat)
    | Process(p: nat, now: nat)
    | Acknowledge(p: nat)

  function At(s: State, p: nat): LoopPc {
    if p in s.loops then s.loops[p] else Idle
  }

  ghost predicate Next(s: State, a: Step, s': State) {
    var pc := At(s, a.p);
    match a
    case Snapshot(p) => pc.Idle? && s' == s.(loops := s.loops[p := InFlight(s.acks)])
    case PostFails(p) => pc.InFlight? && s' == s.(loops := s.loops[p := Idle])
    case PostSucceeds(p, events) =>
      pc.InFlight? && s' ==
          s.(loops := s.loops[p := Answered(pc.sent, events)], posted := s.posted + set id | id in pc.sent)
    case ClearSent(p) =>
      pc.Answered? && s' == s.(acks := Without(s.acks, pc.sent), loops := s.loops[p := Processing(pc.events)])
    case Process(p, now) =>
      && pc.Processing?
      && if pc.events == [] then s' == s.(loops := s.loops[p := Idle])
         else
           var ev, rest := pc.events[0], pc.events[1..];
           exists isNew :: Marks(s.seen, ev.id, now, isNew, s'.seen)
             && s' == if Handled(Mark(ev.id, now, isNew), ev.accepted)
                      then s.(seen := s'.seen, loops := s.loops[p := Acking(ev.id, rest)],
                              handled := s.handled + {ev.id})
                      else s.(seen := s'.seen, loops := s.loops[p := Processing(rest)])
    case Acknowledge(p) =>
      pc.Acking? && s' == s.(acks := if pc.id == "" then s.acks else s.acks + [pc.id],
                             added := if pc.id == "" then s.added else s.added + {pc.id},
                             loops := s.loops[p := Processing(pc.events)])
  }

  function Initial(): State {
    State([], map[], map[], {}, {}, {})
  }

  ghost predicate IsRun(states: seq<State>, steps: seq<Step>) {
    && |states| == |steps| + 1 && states[0] == Initial()
    && forall i :: 0 <= i < |steps| ==> Next(states[i], steps[i], states[i + 1])
  }

  /** The ids a loop holds were handled; those of an answered POST were carried by it. */
  ghost predicate LoopOk(s: State, pc: LoopPc) {
    match pc
    case Idle => true
    case InFlight(sent) => forall id :: id in sent ==> id in s.handled
    case Answered(sent, _) => forall id :: id in sent ==> id in s.handled && id in s.posted
    case Processing(_) => true
    case Acking(id, _) => id in s.handled
  }

  ghost predicate AckInv(s: State) {
    && (forall id :: id in s.added ==> id in s.acks || id in s.posted)
    && (forall id :: id in s.acks ==> id in s.added)
    && s.added <= s.handled && s.posted <= s.handled
    && (forall p :: p in s.loops ==> LoopOk(s, s.loops[p]))
  }

  lemma StepKeepsAckInv(s: State, a: Step, s': State)
    requires AckInv(s) && Next(s, a, s')
    ensures AckInv(s')
  {
    forall p | p in s'.loops ensures LoopOk(s', s'.loops[p]) {
      assert p != a.p ==> p in s.loops && LoopOk(s, s.loops[p]);
      assert a.p in s.loops ==> LoopOk(s, s.loops[a.p]);
    }
    assert a.p in s.loops ==> LoopOk(s, s.loops[a.p]);
  }

  /**
   No acknowledgement is lost or invented, however the loops interleave: every id ever acked is still in the
   list or was carried by a POST that succeeded, and nothing is listed or sent that was not handled.
   */
  lemma {:induction false} AcksAreConserved(states: seq<State>, steps: seq<Step>, n: nat)
    requires IsRun(states, steps) && n < |states|
    ensures AckInv(states[n])
  {
    if n > 0 {
      AcksAreConserved(states, steps, n - 1);
      assert Next(states[n - 1], steps[n - 1], states[n - 1 + 1]);
      StepKeepsAckInv(states[n - 1], steps[n - 1], states[n]);
    }
  }

  /** What is left of a list, part by part: every id that was sent goes, every other one stays, in order. */
  lemma {:induction false} WithoutByParts(a: seq<string>, b: seq<string>, sent: seq<string>, id: string)
    ensures Without(a + b, sent) == Without(a, sent) + Without(b, sent)
    ensures Without([id], sent) == if id in sent then [] else [id]
    decreases |a|
  {
    assert [id][1..] == [];
    if a == [] {
      assert a + b == b;
    } else {
      assert (a + b)[1..] == a[1..] + b;
      WithoutByParts(a[1..], b, sent, id);
    }
  }

  /** Loop p takes no step from k up to m. */
  predicate Waits(steps: seq<Step>, p: nat, k: nat, m: nat) {
    k <= m <= |steps| && forall i :: k <= i < m ==> steps[i].p != p
  }

  lemma {:induction false} WaitingLoopStays(states: seq<State>, steps: seq<Step>, p: nat, k: nat, m: nat)
    requires IsRun(states, steps) && Waits(steps, p, k, m)
    ensures At(states[m], p) == At(states[k], p)
    decreases m
  {
    if k < m {
      assert Next(states[m - 1], steps[m - 1], states[m - 1 + 1]);
      WaitingLoopStays(states, steps, p, k, m - 1);
    }
  }

  /**
   Exactly the events that are accepted or still remembered are acknowledged: after its processing step a loop next
   appends the id of the event to the list, if it has one, or goes on without.
   */
  lemma HandledEventIsListed(states: seq<State>, steps: seq<Step>, p: nat, k: nat, m: nat)
    requires IsRun(states, steps) && k < m < |steps| && Waits(steps, p, k + 1, m)
    requires steps[k].Process? && steps[k].p == p == steps[m].p
    requires At(states[k], p).Processing? && At(states[k], p).events != []
    ensures var ev := At(states[k], p).events[0];
      && (steps[m] == Acknowledge(p) <==> ev.accepted || (ev.id != "" && ev.id in Fresh(states[k].seen, steps[k].now)))
      && (steps[m] == Acknowledge(p) ==>
            states[m + 1].acks == states[m].acks + (if ev.id == "" then [] else [ev.id]))
      && (steps[m] != Acknowledge(p) ==> steps[m].Process?)
  {
    assert Next(states[k], steps[k], states[k + 1]);
    assert Next(states[m], steps[m], states[m + 1]);
    WaitingLoopStays(states, steps, p, k + 1, m);
  }

  /** The loop is on a response, and these events of it are still to come. */
  predicate OnResponse(pc: LoopPc) {
    pc.Answered? || pc.Processing? || pc.Acking?
  }

  /** The event that a step of loop p processes, if it does. */
  function Taken(pc: LoopPc, a: Step, p: nat): seq<Delivered> {
    if a.Process? && a.p == p && pc.Processing? && pc.events != [] then pc.events[..1] else []
  }

  /** The events that loop p has processed from k up to n. */
  function Processed(states: seq<State>, steps: seq<Step>, p: nat, k: nat, n: nat): seq<Delivered>
    requires |states| == |steps| + 1 && k <= n <= |steps|
    decreases n
  {
    if n == k then [] else Processed(states, steps, p, k, n - 1) + Taken(At(states[n - 1], p), steps[n - 1], p)
  }

  /** Events of the response that are processed and to come; all of them when the loop is idle again. */
  ghost predicate InOrder(done: seq<Delivered>, pc: LoopPc, events: seq<Delivered>) {
    if OnResponse(pc) then done + pc.events == events else done == events
  }

  /** The loop is on its response in all these states. */
  ghost predicate StaysOn(states: seq<State>, p: nat, from: nat, to: nat) {
    to <= |states| && forall i :: from <= i < to ==> OnResponse(At(states[i], p))
  }

  lemma ProcessedLast(states: seq<State>, steps: seq<Step>, p: nat, k: nat, n: nat)
    requires |states| == |steps| + 1 && k <= n < |steps|
    ensures Processed(states, steps, p, k, n + 1)
         == Processed(states, steps, p, k, n) + Taken(At(states[n], p), steps[n], p)
  {
  }

  /** What loop p has processed of a response, and what is still to come of it, at state n. */
  ghost predicate InOrderAt(states: seq<State>, steps: seq<Step>, p: nat, k: nat, n: nat)
    requires |states| == |steps| + 1 && k < n <= |steps| && steps[k].PostSucceeds?
  {
    InOrder(Processed(states, steps, p, k + 1, n), At(states[n], p), steps[k].events)
  }

  /** Every event of a response is processed once, in order, before the loop is idle again. */
  lemma ResponseIsProcessed(states: seq<State>, steps: seq<Step>, p: nat, k: nat, n: nat)
    requires IsRun(states, steps) && k < n <= |steps| && steps[k].PostSucceeds? && steps[k].p == p
    requires StaysOn(states, p, k + 1, n)
    ensures InOrderAt(states, steps, p, k, n)
  {
    FirstInOrder(states, steps, p, k);
    forall m | k < m < n && InOrderAt(states, steps, p, k, m) ensures InOrderAt(states, steps, p, k, m + 1) {
      NextInOrder(states, steps, p, k, m);
    }
    StepByStep(states, steps, p, k, n);
  }

  lemma {:induction false} StepByStep(states: seq<State>, steps: seq<Step>, p: nat, k: nat, n: nat)
    requires |states| == |steps| + 1 && k < n <= |steps| && steps[k].PostSucceeds?
    requires InOrderAt(states, steps, p, k, k + 1)
    requires forall m :: k < m < n && InOrderAt(states, steps, p, k, m) ==> InOrderAt(states, steps, p, k, m + 1)
    ensures InOrderAt(states, steps, p, k, n)
    decreases n
  {
    if n > k + 1 {
      StepByStep(states, steps, p, k, n - 1);
    }
  }

  lemma FirstInOrder(states: seq<State>, steps: seq<Step>, p: nat, k: nat)
    requires IsRun(states, steps) && k < |steps| && steps[k].PostSucceeds? && steps[k].p == p
    ensures InOrderAt(states, steps, p, k, k + 1)
  {
    StepAt(states, steps, k);
    ResponseBegins(states[k], steps[k], states[k + 1], p);
  }

  lemma NextInOrder(states: seq<State>, steps: seq<Step>, p: nat, k: nat, n: nat)
    requires IsRun(states, steps) && k < n < |steps| && steps[k].PostSucceeds? && OnResponse(At(states[n], p))
    requires InOrderAt(states, steps, p, k, n)
    ensures InOrderAt(states, steps, p, k, n + 1)
  {
    ProcessedLast(states, steps, p, k + 1, n);
    StepAt(states, steps, n);
    OneProcessed(states[n], steps[n], states[n + 1], p, Processed(states, steps, p, k + 1, n), steps[k].events);
  }

  lemma ResponseBegins(s: State, a: Step, s': State, p: nat)
    requires Next(s, a, s') && a.PostSucceeds? && a.p == p
    ensures InOrder([], At(s', p), a.events)
  {
    assert [] + a.events == a.events;
  }

  lemma StepAt(states: seq<State>, steps: seq<Step>, n: nat)
    requires IsRun(states, steps) && n < |steps|
    ensures Next(states[n], steps[n], states[n + 1])
  {
  }

  lemma OneProcessed(s: State, a: Step, s': State, p: nat, done: seq<Delivered>, events: seq<Delivered>)
    requires Next(s, a, s') && OnResponse(At(s, p)) && InOrder(done, At(s, p), events)
    ensures InOrder(done + Taken(At(s, p), a, p), At(s', p), events)
  {
    var pc, pc' := At(s, p), At(s', p);
    if Taken(pc, a, p) != [] {
      assert pc.events == pc.events[..1] + pc.events[1..];
      assert done + pc.events == (done + pc.events[..1]) + pc.events[1..];
    } else {
      assert done + [] == done;
    }
  }

  /** Every id that is listed when a loop takes its snapshot is carried by its POST when that succeeds. */
  lemma ListedIsPosted(states: seq<State>, steps: seq<Step>, p: nat, k: nat, m: nat)
    requires IsRun(states, steps) && k < m < |steps| && Waits(steps, p, k + 1, m)
    requires steps[k] == Snapshot(p) && steps[m].PostSucceeds? && steps[m].p == p
    ensures At(states[m + 1], p).Answered? && At(states[m + 1], p).sent == states[k].acks
    ensures forall id :: id in states[k].acks ==> id in states[m + 1].posted
  {
    StepAt(states, steps, k);
    StepAt(states, steps, m);
    WaitingLoopStays(states, steps, p, k + 1, m);
  }

  /** Clearing takes exactly what the POST carried off the list; a POST that failed leaves the list alone. */
  lemma PostedIsCleared(states: seq<State>, steps: seq<Step>, p: nat, k: nat)
    requires IsRun(states, steps) && k < |steps| && (steps[k] == ClearSent(p) || steps[k] == PostFails(p))
    ensures steps[k] == PostFails(p) ==> states[k + 1].acks == states[k].acks
    ensures steps[k] == ClearSent(p) ==> At(states[k], p).Answered?
    ensures steps[k] == ClearSent(p) ==>
      forall id :: id in states[k + 1].acks <==> id in states[k].acks && id !in At(states[k], p).sent
  {
    StepAt(states, steps, k);
  }
}
