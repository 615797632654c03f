/**
 The terminal table as the source keeps it: shared session records under a map.  Each
 method is one section of `TerminalSessions`, proved against its functions there.
 */
module TerminalTable {
  import opened Prelude
  import T = TerminalSessions

  class TerminalSession {
    const id: string
    const term: nat
    var conn: Option<nat>
    var timer: Option<nat>
    var removed: bool

    constructor (id: string, term: nat)
      ensures Value() == T.Session(id, term, None, None, false)
    {
      this.id, this.term := id, term;
      conn, timer, removed := None, None, false;
    }

    ghost function Value(): T.Session
      reads this
    {
      T.Session(id, term, conn, timer, removed)
    }
  }

  class Terminals {
    var sessions: map<string, TerminalSession>
    var ticking: map<nat, TerminalSession>

    constructor ()
      ensures sessions == map[] && ticking == map[]
    {
      sessions, ticking := map[], map[];
    }

    ghost predicate Valid()
      reads this
    {
      forall id :: id in sessions ==> sessions[id].id == id
    }

    method StopTimer(s: TerminalSession)
      modifies `ticking, s`timer
      ensures s.timer == None
      ensures ticking == if old(s.timer).Some? then old(ticking) - {old(s.timer).value} else old(ticking)
    {
      if s.timer.Some? {
        ticking := ticking - {s.timer.value};
        s.timer := None;
      }
    }

    /**
     The part of acquireSession that holds both locks: the connection takes over, and the old one is returned to be
     closed.
     */
    method Attach(s: TerminalSession, conn: nat) returns (oldConn: Option<nat>)
      modifies `ticking, s
      ensures s.Value() == T.Attached(old(s.Value()), conn) && oldConn == old(s.conn)
      ensures ticking == if old(s.timer).Some? then old(ticking) - {old(s.timer).value} else old(ticking)
    {
      s.removed := false;
      StopTimer(s);
      oldConn := s.conn;
      s.conn := Some(conn);
    }

    /**
     The second look, with a PTY in hand: join a session that appeared meanwhile and leave the PTY an orphan,
     or enter the new one.
     */
    method EnterOrJoin(id: string, conn: nat, term: nat) returns (s: TerminalSession, first: bool, orphan: Option<nat>)
      requires Valid()
      modifies this, sessions.Values
      ensures Valid() && id in sessions && sessions[id] == s
      ensures first == (id !in old(sessions)) && orphan == (if first then None else Some(term))
      ensures !first ==> sessions == old(sessions) && s.Value() == T.Attached(old(sessions[id].Value()), conn)
      ensures first ==> fresh(s) && sessions == old(sessions)[id := s]
                        && s.Value() == T.Attached(T.Session(id, term, None, None, false), conn)
    {
      if id in sessions {
        s, first, orphan := sessions[id], false, Some(term);
      } else {
        s := new TerminalSession(id, term);
        first, orphan := true, None;
        sessions := sessions[id := s];
      }
      var oldConn := Attach(s, conn);
    }

    method Detach(s: TerminalSession, conn: nat, timer: nat)
      modifies `ticking, s
      ensures s.Value() == T.Detached(old(s.Value()), conn, timer)
      ensures ticking == if T.DetachApplies(old(s.Value()), conn) && old(s.timer).None?
                         then old(ticking)[timer := s] else old(ticking)
    {
      if s.removed || s.conn != Some(conn) {
        return;
      }
      s.conn := None;
      if s.timer == None {
        s.timer := Some(timer);
        ticking := ticking[timer := s];
      }
    }

    /** First section of closeSession: take the expected session, and no other, out of the table. */
    method Take(expected: TerminalSession) returns (taken: bool)
      requires Valid()
      modifies `sessions
      ensures Valid() && taken == (expected.id in old(sessions) && old(sessions)[expected.id] == expected)
      ensures sessions == if taken then old(sessions) - {expected.id} else old(sessions)
    {
      if expected.id !in sessions || sessions[expected.id] != expected {
        return false;
      }
      sessions := sessions - {expected.id};
      return true;
    }

    /** Second section of closeSession; it says whether to go on and close the PTY. */
    method Mark(s: TerminalSession) returns (close: bool)
      modifies `ticking, s
      ensures close == !old(s.removed) && s.Value() == T.MarkedRemoved(old(s.Value()))
      ensures close ==> ticking == if old(s.timer).Some? then old(ticking) - {old(s.timer).value} else old(ticking)
      ensures !close ==> ticking == old(ticking)
    {
      if s.removed {
        return false;
      }
      s.removed := true;
      StopTimer(s);
      s.conn := None;
      return true;
    }
  }
}
