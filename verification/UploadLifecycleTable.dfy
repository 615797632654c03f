/**
 The lifecycle table as the source keeps it: a map from upload ids to shared records that
 the critical sections update in place.  Each method is proved against its function in
 `UploadLifecycle`.
 */
module UploadLifecycleTable {
  import opened Prelude
  import L = UploadLifecycle

  // ---------- what a section did, on the values ----------

  type Entries = map<string, L.Entry>

  lemma OneEntry(was: Entries, now: Entries, id: string)
    requires now.Keys == was.Keys + {id} && forall i :: i in was && i != id ==> was[i] == now[i]
    ensures now == was[id := now[id]]
  {
  }

  lemma OneGone(was: Entries, now: Entries, id: string)
    requires now.Keys == was.Keys - {id} && forall i :: i in now ==> was[i] == now[i]
    ensures now == was - {id}
  {
  }

  lemma Pruned(was: Entries, now: Entries, time: nat)
    requires forall id :: id in now ==> id in was && now[id] == was[id]
    requires forall id :: id in was ==> (id in now <==> !L.Prunable(was[id], time))
    ensures forall closed, next :: L.Core(now, closed, next) == L.Pruned(L.Core(was, closed, next), time)
  {
    assert now == map id | id in was && !L.Prunable(was[id], time) :: was[id];
  }

  /** An entry after one of its streams has ended. */
  function Less(e: L.Entry, stream: string): L.Entry {
    L.Entry(if e.active > 0 then e.active - 1 else e.active, e.idle, e.canceled, e.canceledAt,
            if stream != "" then e.streams - {stream} else e.streams)
  }

  lemma Ended(was: L.Core, now: L.Core, id: string, stream: string)
    requires id in was.table && now.next == was.next
    requires var e := was.table[id];
      && now.closed == (if e.active == 1 then was.closed + {e.idle} else was.closed)
      && now.table == if e.active == 1 && !e.canceled then was.table - {id} else was.table[id := Less(e, stream)]
    ensures now == L.End(was, id, stream)
  {
  }

  class Lifecycle {
    var active: int
    var idle: nat
    var canceled: bool
    var canceledAt: nat
    var streams: map<string, nat>

    constructor (idle: nat)
      ensures Value() == L.Entry(0, idle, false, 0, map[])
    {
      active, this.idle, canceled, canceledAt, streams := 0, idle, false, 0, map[];
    }

    ghost function Value(): L.Entry
      reads this
    {
      L.Entry(active, idle, canceled, canceledAt, streams)
    }
  }

  class UploadLifecycles {
    var table: map<string, Lifecycle>
    var closed: set<nat>
    var next: nat

    ghost predicate Valid()
      reads this
    {
      forall id, id' :: id in table && id' in table && id != id' ==> table[id] != table[id']
    }

    ghost function Abs(): L.Core
      reads this, table.Values
    {
      L.Core(map id | id in table :: table[id].Value(), closed, next)
    }

    constructor ()
      ensures Valid() && Abs() == L.Initial().core
    {
      table, closed, next := map[], {}, 0;
    }

    method MakeChannel() returns (ch: nat)
      modifies `next
      ensures ch == old(next) && next == ch + 1
    {
      ch, next := next, next + 1;
    }

    /** Closing a closed channel panics, so callers must show that it is open. */
    method CloseChannel(ch: nat)
      requires ch !in closed
      modifies `closed
      ensures closed == old(closed) + {ch}
    {
      closed := closed + {ch};
    }

    /** Walks the table in no particular order, deleting as it goes. */
    method Prune(now: nat)
      requires Valid()
      modifies `table
      ensures Valid() && Abs() == L.Pruned(old(Abs()), now)
      ensures table.Values <= old(table.Values)
    {
      var todo := table.Keys;
      ghost var was := Abs().table;
      while todo != {}
        invariant todo <= table.Keys <= old(table.Keys)
        invariant forall id :: id in table ==> table[id] == old(table[id])
        invariant forall id :: id in old(table) && id !in todo ==> (id in table <==> !L.Prunable(was[id], now))
        decreases todo
      {
        var id :| id in todo;
        todo := todo - {id};
        var state := table[id];
        if !state.canceled || state.active != 0 {
          continue;
        }
        if state.canceledAt == 0 || now - state.canceledAt >= L.TOMBSTONE_TTL {
          table := table - {id};
        }
      }
      Pruned(was, Abs().table, now);
    }

    /** The entry of an upload, created with a closed channel when it is missing. */
    method Ensure(id: string) returns (state: Lifecycle)
      requires Valid() && next !in closed
      modifies this
      ensures Valid() && Abs() == L.Ensured(old(Abs()), id)
      ensures id in table && table[id] == state
      ensures fresh(table.Values - old(table.Values))
    {
      if id in table {
        return table[id];
      }
      ghost var was := Abs().table;
      var ch := MakeChannel();
      state := new Lifecycle(ch);
      CloseChannel(ch);
      table := table[id := state];
      OneEntry(was, Abs().table, id);
    }

    method Begin(id: string, stream: string, handle: nat, now: nat) returns (ok: bool)
      requires Valid() && forall c :: c in closed ==> c < next
      modifies this, table.Values
      ensures Valid() && (Abs(), ok) == L.Begin(old(Abs()), id, stream, handle, now)
    {
      if id == "" {
        return true;
      }
      Prune(now);
      if id in table && table[id].canceled {
        return false;
      }
      var state := Ensure(id);
      Activate(id, state, stream, handle);
      ok := true;
    }

    method Activate(id: string, state: Lifecycle, stream: string, handle: nat)
      requires Valid() && id in table && table[id] == state
      modifies `next, state
      ensures Valid() && Abs() == L.Activated(old(Abs()), id, stream, handle)
    {
      ghost var was := Abs();
      state.active := state.active + 1;
      if state.active == 1 {
        state.idle := MakeChannel();
      }
      if stream != "" {
        state.streams := state.streams[stream := handle];
      }
      OneEntry(was.table, Abs().table, id);
    }

    method End(id: string, stream: string)
      requires Valid() && !L.EndPanics(Abs(), id)
      modifies this, table.Values
      ensures Valid() && Abs() == L.End(old(Abs()), id, stream)
    {
      if id in table {
        var state := table[id];
        ghost var c := Abs();
        if stream != "" {
          state.streams := state.streams - {stream};
        }
        if state.active > 0 {
          state.active := state.active - 1;
          if state.active == 0 {
            CloseChannel(state.idle);
            if !state.canceled {
              table := table - {id};
              OneGone(c.table, Abs().table, id);
              Ended(c, Abs(), id, stream);
              return;
            }
          }
        }
        OneEntry(c.table, Abs().table, id);
        Ended(c, Abs(), id, stream);
      }
    }

    method Wait(id: string) returns (blocked: Option<nat>)
      requires Valid()
      modifies `table
      ensures Valid() && (Abs(), blocked) == L.Wait(old(Abs()), id)
    {
      if id == "" {
        return None;
      }
      if id !in table || table[id].active == 0 {
        if id in table && !table[id].canceled {
          ghost var c := Abs();
          table := table - {id};
          assert Abs().table == c.table - {id};
        }
        return None;
      }
      return Some(table[id].idle);
    }

    method Cancel(id: string, now: nat, now': nat) returns (calls: set<nat>)
      requires Valid() && forall c :: c in closed ==> c < next
      modifies this, table.Values
      ensures Valid() && (Abs(), calls) == L.Cancel(old(Abs()), id, now, now')
    {
      if id == "" {
        return {};
      }
      Prune(now);
      var state := Ensure(id);
      calls := Calls(state);
      Entomb(id, state, now');
    }

    method Entomb(id: string, state: Lifecycle, now: nat)
      requires Valid() && id in table && table[id] == state
      modifies state
      ensures Valid()
      ensures Abs() == var c := old(Abs());
                       c.(table := c.table[id := c.table[id].(canceled := true, canceledAt := now)])
    {
      state.canceled := true;
      state.canceledAt := now;
      assert Abs().table == old(Abs()).table[id := state.Value()];
    }

    /** The cancel functions of the registered streams, collected in no particular order. */
    method Calls(state: Lifecycle) returns (calls: set<nat>)
      ensures calls == state.streams.Values
    {
      calls := {};
      var todo := state.streams.Keys;
      ghost var done: set<string> := {};
      while todo != {}
        invariant todo !! done && todo + done == state.streams.Keys
        invariant calls == set k | k in done :: state.streams[k]
        decreases todo
      {
        var k :| k in todo;
        todo, done := todo - {k}, done + {k};
        calls := calls + {state.streams[k]};
      }
      assert calls == state.streams.Values;
    }
  }
}
