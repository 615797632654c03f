/**
 The upload lifecycle table (`agent/server/file_stream.go`): it counts the active
 streams of each upload, hands out an idle channel to wait on, and keeps a tombstone
 after a cancel.

 The critical sections are functions on a `Core`; class `UploadLifecycles` runs them on
 shared mutable records, as the source does.  Runs interleave the sections freely.
 Channels are numbered; closing a closed one is Go's panic.  Times are nanoseconds, and
 0 is the zero time.
 */
module UploadLifecycle {
  import opened Prelude

  const TOMBSTONE_TTL := 15 * 60 * 1_000_000_000

  // ---------- the critical sections ----------

  /** `streams` maps a stream id to the stream whose cancel function is registered under it. */
  datatype Entry = Entry(active: int, idle: nat, canceled: bool, canceledAt: nat, streams: map<string, nat>)

  datatype Core = Core(table: map<string, Entry>, closed: set<nat>, next: nat)

  predicate Prunable(e: Entry, now: nat) {
    e.canceled && e.active == 0 && (e.canceledAt == 0 || now - e.canceledAt >= TOMBSTONE_TTL)
  }

  function Pruned(c: Core, now: nat): Core {
    c.(table := map id | id in c.table && !Prunable(c.table[id], now) :: c.table[id])
  }

  /** The entry of an upload is created on demand, with a closed channel. */
  function Ensured(c: Core, id: string): (r: Core)
    ensures id in r.table
  {
    if id in c.table then c
    else Core(c.table[id := Entry(0, c.next, false, 0, map[])], c.closed + {c.next}, c.next + 1)
  }

  /** One more active stream; the first one makes a new, open idle channel. */
  function Activated(c: Core, id: string, stream: string, handle: nat): Core
    requires id in c.table
  {
    var e := c.table[id];
    var streams := if stream != "" then e.streams[stream := handle] else e.streams;
    var first := e.active == 0;
    Core(c.table[id := e.(active := e.active + 1, idle := if first then c.next else e.idle, streams := streams)],
         c.closed, if first then c.next + 1 else c.next)
  }

  /** A begin registers one more active stream, unless the upload was cancelled. */
  function Begin(c: Core, id: string, stream: string, handle: nat, now: nat): (Core, bool) {
    if id == "" then (c, true)
    else
      var c1 := Ensured(Pruned(c, now), id);
      if c1.table[id].canceled then (Pruned(c, now), false) else (Activated(c1, id, stream, handle), true)
  }

  /** The closure that ends a stream. */
  function End(c: Core, id: string, stream: string): Core {
    if id !in c.table then c
    else
      var e := c.table[id];
      var streams := if stream != "" then e.streams - {stream} else e.streams;
      if e.active <= 0 then c.(table := c.table[id := e.(streams := streams)])
      else if e.active > 1 then c.(table := c.table[id := e.(streams := streams, active := e.active - 1)])
      else Core(if e.canceled then c.table[id := e.(streams := streams, active := 0)] else c.table - {id},
                c.closed + {e.idle}, c.next)
  }

  /** The closing of a channel in End that would panic. */
  predicate EndPanics(c: Core, id: string) {
    id in c.table && c.table[id].active == 1 && c.table[id].idle in c.closed
  }

  /** One turn of the wait loop: nothing is active, or the channel to block on. */
  function Wait(c: Core, id: string): (Core, Option<nat>) {
    if id == "" || id !in c.table then (c, None)
    else if c.table[id].active == 0 then
      (if c.table[id].canceled then c else c.(table := c.table - {id}), None)
    else (c, Some(c.table[id].idle))
  }

  /** A cancel leaves a tombstone and calls the cancel functions registered at that moment. */
  function Cancel(c: Core, id: string, now: nat, now': nat): (Core, set<nat>) {
    if id == "" then (c, {})
    else
      var c1 := Ensured(Pruned(c, now), id);
      var e := c1.table[id];
      (c1.(table := c1.table[id := e.(canceled := true, canceledAt := now')]), e.streams.Values)
  }

  // ---------- runs ----------

  datatype Handle = Handle(upload: string, stream: string)

  datatype Waiter = Waiter(upload: string, channel: nat)

  /** `handles` are the begun and not yet ended streams, `waiters` those blocked on a channel. */
  datatype State = State(core: Core, handles: map<nat, Handle>, waiters: map<nat, Waiter>, clock: nat)

  datatype Event =
    | EvBegin(handle: nat, upload: string, stream: string, now: nat)
    | EvEnd(handle: nat)
    | EvWait(waiter: nat, upload: string)
    | EvWake(waiter: nat)
    | EvCancel(upload: string, now: nat, now': nat)

  predicate Enabled(s: State, e: Event) {
    match e
    case EvBegin(h, u, k, now) => h !in s.handles && u != "" && 0 < now && s.clock <= now
    case EvEnd(h) => h in s.handles
    case EvWait(w, u) => w !in s.waiters
    case EvWake(w) => w in s.waiters && s.waiters[w].channel in s.core.closed
    case EvCancel(u, now, now') => u != "" && 0 < now && s.clock <= now <= now'
  }

  function Step(s: State, e: Event): State {
    match e
    case EvBegin(h, u, k, now) =>
      var (core, ok) := Begin(s.core, u, k, h, now);
      State(core, if ok then s.handles[h := Handle(u, k)] else s.handles, s.waiters, now)
    case EvEnd(h) =>
      if h in s.handles then
        s.(core := End(s.core, s.handles[h].upload, s.handles[h].stream), handles := s.handles - {h})
      else s
    case EvWait(w, u) =>
      var (core, blocked) := Wait(s.core, u);
      s.(core := core, waiters := if blocked.Some? then s.waiters[w := Waiter(u, blocked.value)] else s.waiters)
    case EvWake(w) => s.(waiters := s.waiters - {w})
    case EvCancel(u, now, now') =>
      s.(core := Cancel(s.core, u, now, now').0, clock := now')
  }

  function Initial(): State {
    State(Core(map[], {}, 0), map[], map[], 0)
  }

  function Run(s: State, run: seq<Event>): State
    decreases |run|
  {
    if run == [] then s else Run(Step(s, run[0]), run[1..])
  }

  predicate Legal(s: State, run: seq<Event>)
    decreases |run|
  {
    run == [] || (Enabled(s, run[0]) && Legal(Step(s, run[0]), run[1..]))
  }

  // ---------- the invariant ----------

  function Outstanding(s: State, id: string): set<nat> {
    set h | h in s.handles && s.handles[h].upload == id
  }

  /** One stored entry against the outstanding streams. */
  ghost predicate EntryOk(s: State, id: string)
    requires id in s.core.table
  {
    var e := s.core.table[id];
    && e.active == |Outstanding(s, id)|
    && e.idle < s.core.next
    && (e.idle in s.core.closed <==> e.active == 0)
    && (e.active == 0 ==> e.canceled)
    && (e.canceled ==> 0 < e.canceledAt <= s.clock)
    && forall k :: k in e.streams ==>
         k != "" && e.streams[k] in s.handles && s.handles[e.streams[k]] == Handle(id, k)
  }

  ghost predicate WaiterOk(s: State, w: nat)
    requires w in s.waiters
  {
    var Waiter(u, ch) := s.waiters[w];
    ch in s.core.closed || (u in s.core.table && s.core.table[u].idle == ch && s.core.table[u].active > 0)
  }

  ghost predicate Inv(s: State) {
    && (forall id :: id in s.core.table ==> id != "" && EntryOk(s, id))
    && (forall id, id' :: id in s.core.table && id' in s.core.table && id != id' ==>
          s.core.table[id].idle != s.core.table[id'].idle)
    && (forall c :: c in s.core.closed ==> c < s.core.next)
    && (forall h :: h in s.handles ==> s.handles[h].upload in s.core.table)
    && (forall w :: w in s.waiters ==> WaiterOk(s, w))
  }

  lemma OutstandingAdd(s: State, h: nat, v: Handle, id: string)
    requires h !in s.handles
    ensures Outstanding(s.(handles := s.handles[h := v]), id)
            == Outstanding(s, id) + (if v.upload == id then {h} else {})
  {
  }

  lemma NoOutstanding(s: State, id: string)
    requires Inv(s) && id !in s.core.table
    ensures Outstanding(s, id) == {}
  {
    assert forall h :: h in s.handles ==> s.handles[h].upload != id;
  }

  lemma ActiveIffOutstanding(s: State, id: string)
    requires Inv(s)
    ensures (id !in s.core.table || s.core.table[id].active == 0) <==> Outstanding(s, id) == {}
  {
    if id !in s.core.table {
      NoOutstanding(s, id);
    } else {
      assert EntryOk(s, id);
    }
  }

  lemma PruneKeeps(s: State, now: nat)
    requires Inv(s)
    ensures Inv(s.(core := Pruned(s.core, now)))
  {
    var s' := s.(core := Pruned(s.core, now));
    forall id | id in s'.core.table ensures EntryOk(s', id) {
      assert EntryOk(s, id);
      assert Outstanding(s', id) == Outstanding(s, id);
    }
    forall h | h in s'.handles ensures s'.handles[h].upload in s'.core.table {
      var u := s.handles[h].upload;
      assert EntryOk(s, u) && h in Outstanding(s, u);
    }
    forall w | w in s'.waiters ensures WaiterOk(s', w) {
      assert WaiterOk(s, w);
    }
  }

  /** A created entry is idle and not yet cancelled: the one case the invariant does not allow to last. */
  ghost predicate InvButFresh(s: State, id: string) {
    && (forall i :: i in s.core.table && i != id ==> i != "" && EntryOk(s, i))
    && (forall i, i' :: i in s.core.table && i' in s.core.table && i != i' ==>
          s.core.table[i].idle != s.core.table[i'].idle)
    && (forall c :: c in s.core.closed ==> c < s.core.next)
    && (forall h :: h in s.handles ==> s.handles[h].upload in s.core.table)
    && (forall w :: w in s.waiters ==> WaiterOk(s, w))
    && id in s.core.table
    && (EntryOk(s, id) || (s.core.table[id] == Entry(0, s.core.table[id].idle, false, 0, map[])
                           && Outstanding(s, id) == {} && s.core.table[id].idle in s.core.closed))
  }

  lemma EnsureKeeps(s: State, id: string)
    requires Inv(s) && id != ""
    ensures InvButFresh(s.(core := Ensured(s.core, id)), id)
  {
    var s' := s.(core := Ensured(s.core, id));
    if id !in s.core.table {
      NoOutstanding(s, id);
      assert Outstanding(s', id) == {};
    }
    forall i | i in s'.core.table && i in s.core.table ensures EntryOk(s', i) {
      assert EntryOk(s, i);
      assert Outstanding(s', i) == Outstanding(s, i);
    }
    forall w | w in s'.waiters ensures WaiterOk(s', w) {
      assert WaiterOk(s, w);
    }
  }

  lemma BeginKeeps(s: State, e: Event)
    requires Inv(s) && Enabled(s, e) && e.EvBegin?
    ensures Inv(Step(s, e))
  {
    var EvBegin(h, u, k, now) := e;
    PruneKeeps(s, now);
    var s1 := s.(core := Pruned(s.core, now));
    if u in s1.core.table && s1.core.table[u].canceled {
      ClockAdvances(s1, now);
    } else {
      EnsureKeeps(s1, u);
      BeginRegisters(s1.(core := Ensured(s1.core, u)), h, u, k, now);
    }
  }

  lemma ClockAdvances(s: State, now: nat)
    requires Inv(s) && s.clock <= now
    ensures Inv(s.(clock := now))
  {
    var s' := s.(clock := now);
    forall i | i in s'.core.table ensures EntryOk(s', i) {
      assert EntryOk(s, i) && Outstanding(s', i) == Outstanding(s, i);
    }
    forall w | w in s'.waiters ensures WaiterOk(s', w) {
      assert WaiterOk(s, w);
    }
  }

  /** The state after an uncancelled begin, from the state with the entry in place. */
  function Registered(s2: State, h: nat, u: string, k: string, now: nat): State
    requires u in s2.core.table
  {
    State(Activated(s2.core, u, k, h), s2.handles[h := Handle(u, k)], s2.waiters, now)
  }

  lemma BeginRegisters(s2: State, h: nat, u: string, k: string, now: nat)
    requires InvButFresh(s2, u) && u != "" && !s2.core.table[u].canceled && h !in s2.handles && s2.clock <= now
    ensures Inv(Registered(s2, h, u, k, now))
  {
    var s' := Registered(s2, h, u, k, now);
    forall i | i in s'.core.table ensures i != "" && EntryOk(s', i) {
      BeginKeepsEntry(s2, h, u, k, now, i);
    }
    forall w | w in s'.waiters ensures WaiterOk(s', w) {
      assert WaiterOk(s2, w);
    }
  }

  lemma BeginKeepsEntry(s2: State, h: nat, u: string, k: string, now: nat, i: string)
    requires InvButFresh(s2, u) && u != "" && !s2.core.table[u].canceled && h !in s2.handles && s2.clock <= now
    requires i in s2.core.table
    ensures i != "" && EntryOk(Registered(s2, h, u, k, now), i)
  {
    var s' := Registered(s2, h, u, k, now);
    OutstandingAdd(s2, h, Handle(u, k), i);
    assert Outstanding(s', i) == Outstanding(s2.(handles := s'.handles), i);
    if i != u {
      assert EntryOk(s2, i);
    } else {
      assert h !in Outstanding(s2, u);
    }
  }

  lemma EndKeeps(s: State, e: Event)
    requires Inv(s) && Enabled(s, e) && e.EvEnd?
    ensures Inv(Step(s, e)) && !EndPanics(s.core, s.handles[e.handle].upload)
  {
    var h := e.handle;
    var u := s.handles[h].upload;
    var s' := Step(s, e);
    EndClosesOnce(s, h);
    forall i | i in s'.core.table ensures i != "" && EntryOk(s', i) {
      EndKeepsEntry(s, h, i);
    }
    forall g | g in s'.handles ensures s'.handles[g].upload in s'.core.table {
      EndKeepsHandle(s, h, g);
    }
    forall w | w in s'.waiters ensures WaiterOk(s', w) {
      EndKeepsWaiter(s, h, w);
    }
  }

  lemma EndClosesOnce(s: State, h: nat)
    requires Inv(s) && h in s.handles
    ensures !EndPanics(s.core, s.handles[h].upload)
  {
    var u := s.handles[h].upload;
    assert EntryOk(s, u) && h in Outstanding(s, u);
  }

  lemma EndKeepsWaiter(s: State, h: nat, w: nat)
    requires Inv(s) && h in s.handles && w in s.waiters
    ensures WaiterOk(Step(s, EvEnd(h)), w)
  {
    assert WaiterOk(s, w);
  }

  lemma EndKeepsEntry(s: State, h: nat, i: string)
    requires Inv(s) && h in s.handles && i in Step(s, EvEnd(h)).core.table
    ensures i != "" && EntryOk(Step(s, EvEnd(h)), i)
  {
    var u := s.handles[h].upload;
    assert EntryOk(s, u) && h in Outstanding(s, u);
    if i == u {
      EndKeepsOwnEntry(s, h);
    } else {
      EndKeepsOtherEntry(s, h, i);
    }
  }

  lemma OutstandingAfterEnd(s: State, h: nat, i: string)
    requires Enabled(s, EvEnd(h)) && h in s.handles
    ensures Outstanding(Step(s, EvEnd(h)), i) == Outstanding(s, i) - {h}
  {
  }

  lemma EndKeepsOtherEntry(s: State, h: nat, i: string)
    requires Inv(s) && h in s.handles && i in Step(s, EvEnd(h)).core.table && i != s.handles[h].upload
    ensures i != "" && EntryOk(Step(s, EvEnd(h)), i)
  {
    OutstandingAfterEnd(s, h, i);
    assert EntryOk(s, i) && Outstanding(s, i) - {h} == Outstanding(s, i);
  }

  lemma EndKeepsOwnEntry(s: State, h: nat)
    requires Inv(s) && h in s.handles && s.handles[h].upload in Step(s, EvEnd(h)).core.table
    ensures s.handles[h].upload != "" && EntryOk(Step(s, EvEnd(h)), s.handles[h].upload)
  {
    var u := s.handles[h].upload;
    OutstandingAfterEnd(s, h, u);
    assert EntryOk(s, u) && h in Outstanding(s, u);
  }

  lemma EndKeepsHandle(s: State, h: nat, g: nat)
    requires Inv(s) && h in s.handles && g in Step(s, EvEnd(h)).handles
    ensures s.handles[g].upload in Step(s, EvEnd(h)).core.table
  {
    var u := s.handles[h].upload;
    if s.handles[g].upload == u {
      assert {g, h} <= Outstanding(s, u);
      SubsetSize({g, h}, Outstanding(s, u));
      assert EntryOk(s, u);
    }
  }

  lemma WaitKeeps(s: State, e: Event)
    requires Inv(s) && Enabled(s, e) && (e.EvWait? || e.EvWake?)
    ensures Inv(Step(s, e)) && Step(s, e).core == s.core
  {
    var s' := Step(s, e);
    if e.EvWait? && e.upload in s.core.table {
      assert EntryOk(s, e.upload);
    }
    forall i | i in s'.core.table ensures EntryOk(s', i) {
      assert EntryOk(s, i);
      assert Outstanding(s', i) == Outstanding(s, i);
    }
    forall w | w in s'.waiters ensures WaiterOk(s', w) {
      if w in s.waiters {
        assert WaiterOk(s, w);
      }
    }
  }

  /** The state after a cancel, from the state with the entry in place. */
  function Tombstoning(s2: State, u: string, now: nat): State
    requires u in s2.core.table
  {
    var e := s2.core.table[u];
    s2.(core := s2.core.(table := s2.core.table[u := e.(canceled := true, canceledAt := now)]), clock := now)
  }

  lemma TombstoneKeeps(s2: State, u: string, now: nat)
    requires InvButFresh(s2, u) && u != "" && 0 < now && s2.clock <= now
    ensures Inv(Tombstoning(s2, u, now))
  {
    var s' := Tombstoning(s2, u, now);
    forall i | i in s'.core.table ensures i != "" && EntryOk(s', i) {
      assert Outstanding(s', i) == Outstanding(s2, i);
      assert i != u ==> EntryOk(s2, i);
    }
    forall w | w in s'.waiters ensures WaiterOk(s', w) {
      assert WaiterOk(s2, w);
    }
  }

  lemma CancelKeeps(s: State, e: Event)
    requires Inv(s) && Enabled(s, e) && e.EvCancel?
    ensures Inv(Step(s, e))
  {
    var EvCancel(u, now, now') := e;
    PruneKeeps(s, now);
    var s1 := s.(core := Pruned(s.core, now));
    EnsureKeeps(s1, u);
    TombstoneKeeps(s1.(core := Ensured(s1.core, u)), u, now');
  }

  /** Every section keeps the invariant; in particular no channel is ever closed twice. */
  lemma StepKeepsInv(s: State, e: Event)
    requires Inv(s) && Enabled(s, e)
    ensures Inv(Step(s, e))
    ensures e.EvEnd? ==> !EndPanics(s.core, s.handles[e.handle].upload)
  {
    match e
    case EvBegin(_, _, _, _) => BeginKeeps(s, e);
    case EvEnd(_) => EndKeeps(s, e);
    case EvWait(_, _) => WaitKeeps(s, e);
    case EvWake(_) => WaitKeeps(s, e);
    case EvCancel(_, _, _) => CancelKeeps(s, e);
  }

  lemma {:induction false} RunKeepsInv(s: State, run: seq<Event>)
    requires Inv(s) && Legal(s, run)
    ensures Inv(Run(s, run))
    decreases |run|
  {
    if run != [] {
      StepKeepsInv(s, run[0]);
      RunKeepsInv(Step(s, run[0]), run[1..]);
    }
  }

  /**
   Every reachable state: `active` counts the outstanding streams, the idle channel is closed exactly when
   none is left, a stored entry is active or a cancel tombstone, and a blocked waiter's channel is closed or
   is the one that the last active stream will close.
   */
  lemma ReachableStatesAreConsistent(run: seq<Event>)
    requires Legal(Initial(), run)
    ensures var s := Run(Initial(), run);
      && (forall id :: id in s.core.table ==>
            var e := s.core.table[id];
            && e.active == |Outstanding(s, id)|
            && (e.idle in s.core.closed <==> e.active == 0)
            && (e.active == 0 ==> e.canceled))
      && (forall h :: h in s.handles ==> s.handles[h].upload in s.core.table)
      && (forall w :: w in s.waiters ==> WaiterOk(s, w))
  {
    RunKeepsInv(Initial(), run);
    var s := Run(Initial(), run);
    forall id | id in s.core.table
      ensures s.core.table[id].active == |Outstanding(s, id)|
      ensures s.core.table[id].idle in s.core.closed <==> s.core.table[id].active == 0
      ensures s.core.table[id].active == 0 ==> s.core.table[id].canceled
    {
      assert EntryOk(s, id);
    }
  }

  // ---------- cancel safety ----------

  predicate EventBefore(e: Event, until: int) {
    match e
    case EvBegin(_, _, _, now) => now < until
    case EvCancel(_, now, _) => now < until
    case _ => true
  }

  ghost predicate Tombstoned(s: State, u: string, until: int) {
    u in s.core.table && s.core.table[u].canceled && s.core.table[u].canceledAt + TOMBSTONE_TTL >= until
  }

  lemma CancelLeavesTombstone(s: State, u: string, now: nat, now': nat)
    requires Inv(s) && Enabled(s, EvCancel(u, now, now'))
    ensures Tombstoned(Step(s, EvCancel(u, now, now')), u, now' + TOMBSTONE_TTL)
  {
  }

  lemma TombstoneStays(s: State, e: Event, u: string, until: int)
    requires Inv(s) && Enabled(s, e) && EventBefore(e, until) && Tombstoned(s, u, until)
    ensures Tombstoned(Step(s, e), u, until)
    ensures Outstanding(Step(s, e), u) <= Outstanding(s, u)
  {
    assert EntryOk(s, u);
  }

  lemma {:induction false} TombstoneLasts(s: State, run: seq<Event>, u: string, until: int)
    requires Inv(s) && Legal(s, run) && (forall e :: e in run ==> EventBefore(e, until)) && Tombstoned(s, u, until)
    ensures Tombstoned(Run(s, run), u, until) && Inv(Run(s, run))
    ensures Outstanding(Run(s, run), u) <= Outstanding(s, u)
    decreases |run|
  {
    if run != [] {
      StepKeepsInv(s, run[0]);
      TombstoneStays(s, run[0], u, until);
      TombstoneLasts(Step(s, run[0]), run[1..], u, until);
    }
  }

  /** After a cancel, whatever else happens, no stream of that upload begins for fifteen minutes. */
  lemma NoBeginWhileTombstoned(s: State, u: string, now: nat, now': nat, run: seq<Event>,
                               h: nat, k: string, t: nat)
    requires Inv(s) && Enabled(s, EvCancel(u, now, now'))
    requires Legal(Step(s, EvCancel(u, now, now')), run)
    requires forall e :: e in run ==> EventBefore(e, now' + TOMBSTONE_TTL)
    requires t < now' + TOMBSTONE_TTL
    ensures var s' := Run(Step(s, EvCancel(u, now, now')), run);
            !Begin(s'.core, u, k, h, t).1 && Outstanding(s', u) <= Outstanding(s, u)
  {
    var s1 := Step(s, EvCancel(u, now, now'));
    StepKeepsInv(s, EvCancel(u, now, now'));
    CancelLeavesTombstone(s, u, now, now');
    TombstoneLasts(s1, run, u, now' + TOMBSTONE_TTL);
    assert EntryOk(Run(s1, run), u);
    assert Outstanding(s1, u) == Outstanding(s, u);
  }

  // ---------- exactly when a section passes ----------

  /** What a prune leaves: all but the tombstones that are fifteen minutes old and have no streams left. */
  lemma PruneExactly(s: State, now: nat, id: string)
    requires Inv(s)
    ensures id in Pruned(s.core, now).table <==>
            && id in s.core.table
            && !(s.core.table[id].canceled && Outstanding(s, id) == {}
                 && now - s.core.table[id].canceledAt >= 900_000_000_000)
    ensures id in Pruned(s.core, now).table ==> Pruned(s.core, now).table[id] == s.core.table[id]
  {
    ActiveIffOutstanding(s, id);
    if id in s.core.table {
      assert EntryOk(s, id);
    }
  }

  /**
   A stream begins exactly when its upload is not entombed: not cancelled, or cancelled fifteen minutes ago or more
   and without streams that are still outstanding.
   */
  lemma BeginExactly(s: State, u: string, k: string, h: nat, now: nat)
    requires Inv(s) && u != ""
    ensures Begin(s.core, u, k, h, now).1 <==>
            !(u in s.core.table && s.core.table[u].canceled
              && (Outstanding(s, u) != {} || now - s.core.table[u].canceledAt < 900_000_000_000))
  {
    PruneExactly(s, now, u);
  }

  /** A wait blocks exactly while streams of its upload are outstanding, on an open channel; it changes nothing. */
  lemma WaitExactly(s: State, u: string)
    requires Inv(s)
    ensures Wait(s.core, u).0 == s.core
    ensures Wait(s.core, u).1.Some? <==> Outstanding(s, u) != {}
    ensures Wait(s.core, u).1.Some? ==>
      u in s.core.table && Wait(s.core, u).1.value == s.core.table[u].idle && s.core.table[u].idle !in s.core.closed
  {
    ActiveIffOutstanding(s, u);
    if u in s.core.table {
      assert EntryOk(s, u);
    }
  }

  /** If the upload is entombed, it was cancelled no later than this. */
  ghost predicate EntombedBy(s: State, u: string, t: nat) {
    u in s.core.table && s.core.table[u].canceled ==> s.core.table[u].canceledAt <= t
  }

  lemma NoLaterTombstone(s: State, e: Event, u: string, t: nat)
    requires EntombedBy(s, u, t) && Enabled(s, e) && !(e.EvCancel? && e.upload == u)
    ensures EntombedBy(Step(s, e), u, t)
  {
  }

  lemma {:induction false} NoLaterTombstones(s: State, run: seq<Event>, u: string, t: nat)
    requires Inv(s) && EntombedBy(s, u, t) && Legal(s, run)
    requires forall e :: e in run ==> !(e.EvCancel? && e.upload == u)
    ensures EntombedBy(Run(s, run), u, t)
    decreases |run|
  {
    if run != [] {
      StepKeepsInv(s, run[0]);
      NoLaterTombstone(s, run[0], u, t);
      NoLaterTombstones(Step(s, run[0]), run[1..], u, t);
    }
  }

  /** Fifteen minutes after its last cancel, and without streams from before it, an upload can begin again. */
  lemma BeginsAgain(s: State, u: string, now: nat, now': nat, run: seq<Event>, h: nat, k: string, t: nat)
    requires Inv(s) && Enabled(s, EvCancel(u, now, now')) && Legal(Step(s, EvCancel(u, now, now')), run)
    requires forall e :: e in run ==> !(e.EvCancel? && e.upload == u)
    requires Outstanding(Run(Step(s, EvCancel(u, now, now')), run), u) == {} && now' + 900_000_000_000 <= t
    ensures Begin(Run(Step(s, EvCancel(u, now, now')), run).core, u, k, h, t).1
  {
    var s1 := Step(s, EvCancel(u, now, now'));
    StepKeepsInv(s, EvCancel(u, now, now'));
    RunKeepsInv(s1, run);
    NoLaterTombstones(s1, run, u, now');
    BeginExactly(Run(s1, run), u, k, h, t);
  }

  ghost predicate IsRegistered(s: State, h: nat)
    requires h in s.handles
  {
    var Handle(u, k) := s.handles[h];
    u in s.core.table && k in s.core.table[u].streams && s.core.table[u].streams[k] == h
  }

  /** Every outstanding stream that has an id is registered under it. */
  ghost predicate AllRegistered(s: State) {
    forall h :: h in s.handles && s.handles[h].stream != "" ==> IsRegistered(s, h)
  }

  predicate StreamInUse(s: State, u: string, k: string) {
    k != "" && exists h :: h in s.handles && s.handles[h] == Handle(u, k)
  }

  /** A cancel calls exactly the outstanding streams of its upload, when all of them are registered. */
  lemma CancelCallsEveryStream(s: State, u: string, now: nat, now': nat)
    requires Inv(s) && AllRegistered(s) && Enabled(s, EvCancel(u, now, now'))
    ensures Cancel(s.core, u, now, now').1 == set h | h in Outstanding(s, u) && s.handles[h].stream != ""
  {
    var calls := Cancel(s.core, u, now, now').1;
    if u in s.core.table {
      assert EntryOk(s, u);
      if u in Pruned(s.core, now).table {
        forall h | h in Outstanding(s, u) && s.handles[h].stream != "" ensures h in calls {
          assert IsRegistered(s, h);
        }
      } else {
        assert Outstanding(s, u) == {};
      }
    } else {
      NoOutstanding(s, u);
    }
  }

  /** Registration survives every step except a begin under a stream id already in use, and such a begin loses it. */
  lemma RegistrationSurvivesExactly(s: State, e: Event)
    requires Inv(s) && AllRegistered(s) && Enabled(s, e)
    ensures AllRegistered(Step(s, e)) <==>
            !(e.EvBegin? && Begin(s.core, e.upload, e.stream, e.handle, e.now).1 && StreamInUse(s, e.upload, e.stream))
  {
    var s' := Step(s, e);
    StepKeepsInv(s, e);
    if e.EvBegin? && StreamInUse(s, e.upload, e.stream) {
      var g :| g in s.handles && s.handles[g] == Handle(e.upload, e.stream);
      if Begin(s.core, e.upload, e.stream, e.handle, e.now).1 {
        assert g in s'.handles && !IsRegistered(s', g);
      } else {
        RegisteredAfter(s, e);
      }
    } else {
      RegisteredAfter(s, e);
    }
  }

  lemma RegisteredAfter(s: State, e: Event)
    requires Inv(s) && AllRegistered(s) && Enabled(s, e)
    requires e.EvBegin? ==> !StreamInUse(s, e.upload, e.stream) || !Begin(s.core, e.upload, e.stream, e.handle, e.now).1
    ensures AllRegistered(Step(s, e))
  {
    var s' := Step(s, e);
    forall h | h in s'.handles && s'.handles[h].stream != "" ensures IsRegistered(s', h) {
      if h in s.handles {
        assert IsRegistered(s, h);
        if e.EvEnd? {
          RegisteredAfterEnd(s, e.handle, h);
        } else {
          RegisteredAfterOther(s, e, h);
        }
      }
    }
  }

  lemma RegisteredAfterEnd(s: State, g: nat, h: nat)
    requires Inv(s) && g in s.handles && h in s.handles && h != g
    requires IsRegistered(s, h) && s.handles[h].stream != ""
    requires s.handles[g].stream != "" ==> IsRegistered(s, g)
    ensures IsRegistered(Step(s, EvEnd(g)), h)
  {
    EndKeepsHandle(s, g, h);
  }

  lemma RegisteredAfterOther(s: State, e: Event, h: nat)
    requires Inv(s) && Enabled(s, e) && !e.EvEnd?
    requires h in s.handles && IsRegistered(s, h) && s.handles[h].stream != ""
    requires e.EvBegin? ==> !StreamInUse(s, e.upload, e.stream) || !Begin(s.core, e.upload, e.stream, e.handle, e.now).1
    ensures IsRegistered(Step(s, e), h)
  {
    var u := s.handles[h].upload;
    assert EntryOk(s, u) && h in Outstanding(s, u);
  }

  /** No stream id is used twice for one upload. */
  predicate DistinctStreams(run: seq<Event>) {
    forall i, j :: 0 <= i < j < |run| && run[i].EvBegin? && run[j].EvBegin? && run[i].stream != "" ==>
      run[i].upload != run[j].upload || run[i].stream != run[j].stream
  }

  /** No begin of the run uses the id of an outstanding stream. */
  predicate NewStreams(s: State, run: seq<Event>) {
    forall h, i :: h in s.handles && s.handles[h].stream != "" && 0 <= i < |run| && run[i].EvBegin? ==>
      run[i].upload != s.handles[h].upload || run[i].stream != s.handles[h].stream
  }

  lemma HandleCameFrom(s: State, e: Event, h: nat)
    requires Enabled(s, e) && h in Step(s, e).handles
    ensures (h in s.handles && Step(s, e).handles[h] == s.handles[h])
            || (e.EvBegin? && Step(s, e).handles[h] == Handle(e.upload, e.stream))
  {
  }

  lemma {:induction false} RunKeepsRegistered(s: State, run: seq<Event>)
    requires Inv(s) && AllRegistered(s) && Legal(s, run) && DistinctStreams(run) && NewStreams(s, run)
    ensures AllRegistered(Run(s, run)) && Inv(Run(s, run))
    decreases |run|
  {
    if run != [] {
      var e, rest := run[0], run[1..];
      StepKeepsInv(s, e);
      RegistrationSurvivesExactly(s, e);
      forall h, i | h in Step(s, e).handles && Step(s, e).handles[h].stream != "" && 0 <= i < |rest| && rest[i].EvBegin?
        ensures rest[i].upload != Step(s, e).handles[h].upload || rest[i].stream != Step(s, e).handles[h].stream
      {
        HandleCameFrom(s, e, h);
        assert run[i + 1] == rest[i];
      }
      RunKeepsRegistered(Step(s, e), rest);
    }
  }

  /** With distinct stream ids, a cancel at any time calls every outstanding stream of its upload that has an id. */
  lemma CancelReachesAllStreams(run: seq<Event>, u: string, now: nat, now': nat)
    requires Legal(Initial(), run) && DistinctStreams(run) && Enabled(Run(Initial(), run), EvCancel(u, now, now'))
    ensures var s := Run(Initial(), run);
      Cancel(s.core, u, now, now').1 == set h | h in Outstanding(s, u) && s.handles[h].stream != ""
  {
    RunKeepsRegistered(Initial(), run);
    CancelCallsEveryStream(Run(Initial(), run), u, now, now');
  }
}
