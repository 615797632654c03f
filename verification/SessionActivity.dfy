/**
 Coalesced activity writes (`touchSession` in `database/accounts/session_cache.go`): at
 most one UPDATE per token per minute, remembered in a bounded map.  Times are nanoseconds.
 */
module SessionActivity {
  import opened Prelude

  const MINUTE := 60 * 1_000_000_000
  const MAX_ENTRIES := 4096

  type Times = map<string, nat>

  /** What is not older than the coalescing interval. */
  function Recent(times: Times, now: nat): Times {
    map token | token in times && times[token] >= now - MINUTE :: times[token]
  }

  /** Pruning makes room: old timestamps go first, then only the oldest ones. */
  ghost predicate Prunes(times: Times, now: nat, kept: Times) {
    var recent := Recent(times, now);
    if |times| < MAX_ENTRIES then kept == times
    else
      && kept.Keys <= recent.Keys && (forall token :: token in kept ==> kept[token] == recent[token])
      && (|recent| < MAX_ENTRIES ==> kept == recent)
      && (|recent| >= MAX_ENTRIES ==>
            && |kept| == MAX_ENTRIES - 1
            && forall d, k :: d in recent && d !in kept && k in kept ==> recent[d] <= recent[k])
  }

  predicate Coalesced(times: Times, token: string, now: nat) {
    token in times && now - times[token] < MINUTE
  }

  /** The section under the lock either coalesces or stamps the token, and then goes on to write. */
  ghost predicate Touches(times: Times, token: string, now: nat, times': Times) {
    if Coalesced(times, token, now) then times' == times
    else exists kept :: Prunes(times, now, kept) && times' == kept[token := now]
  }

  /** A call reads the clock, takes the lock later with that reading, and takes its stamp back if its write fails. */
  datatype Op =
    | Read(call: nat, token: string, now: nat)
    | Touch(call: nat, token: string, now: nat)
    | UpdateFailed(token: string)

  ghost predicate Next(times: Times, op: Op, times': Times) {
    match op
    case Read(_, _, _) => times' == times
    case Touch(_, token, now) => Touches(times, token, now, times')
    case UpdateFailed(token) => times' == times - {token}
  }

  class Activity {
    var times: Times

    constructor ()
      ensures times == map[]
    {
      times := map[];
    }

    /** Whether the caller has to write. */
    method Touch(token: string, now: nat) returns (write: bool)
      modifies this
      ensures Touches(old(times), token, now, times) && write == !Coalesced(old(times), token, now)
    {
      if token in times && now - times[token] < MINUTE {
        return false;
      }
      Prune(now);
      ghost var kept := times;
      times := times[token := now];
      assert Prunes(old(times), now, kept);
      return true;
    }

    method UpdateFailed(token: string)
      modifies this
      ensures Next(old(times), Op.UpdateFailed(token), times)
    {
      times := times - {token};
    }

    method Prune(now: nat)
      modifies this
      ensures Prunes(old(times), now, times)
    {
      if |times| < MAX_ENTRIES {
        return;
      }
      DropOld(now);
      ghost var recent := times;
      while |times| >= MAX_ENTRIES
        invariant times.Keys <= recent.Keys && forall token :: token in times ==> times[token] == recent[token]
        invariant |recent| < MAX_ENTRIES ==> times == recent
        invariant |recent| >= MAX_ENTRIES ==> |times| >= MAX_ENTRIES - 1
        invariant forall d, k :: d in recent && d !in times && k in times ==> recent[d] <= recent[k]
        decreases |times|
      {
        var oldest := FindOldest();
        ghost var before := times;
        times := times - {oldest};
        assert times.Keys == before.Keys - {oldest};
        assert |times| == |times.Keys| && |before| == |before.Keys|;
      }
    }

    method DropOld(now: nat)
      modifies this
      ensures times == Recent(old(times), now)
    {
      var cutoff := now - MINUTE;
      var todo := times.Keys;
      while todo != {}
        invariant todo <= times.Keys <= old(times).Keys
        invariant forall token :: token in times ==> times[token] == old(times)[token]
        invariant forall token :: token in old(times) && token !in todo ==>
          (token in times <==> old(times)[token] >= cutoff)
        decreases todo
      {
        var token :| token in todo;
        todo := todo - {token};
        if times[token] < cutoff {
          times := times - {token};
        }
      }
    }

    method FindOldest() returns (oldest: string)
      requires times != map[]
      ensures oldest in times && forall token :: token in times ==> times[oldest] <= times[token]
    {
      oldest :| oldest in times;
      var todo := times.Keys - {oldest};
      while todo != {}
        invariant todo <= times.Keys && oldest in times
        invariant forall token :: token in times && token !in todo ==> times[oldest] <= times[token]
        decreases todo
      {
        var token :| token in todo;
        todo := todo - {token};
        if times[token] < times[oldest] {
          oldest := token;
        }
      }
    }
  }

  // ---------- histories ----------

  /** A history, on any clock: every touch uses a reading that its call took before. */
  ghost predicate History(states: seq<Times>, ops: seq<Op>) {
    && |states| == |ops| + 1 && states[0] == map[]
    && (forall i :: 0 <= i < |ops| ==> Next(states[i], ops[i], states[i + 1]))
    && (forall k :: 0 <= k < |ops| && ops[k].Touch? ==> ReadBefore(ops, k, ops[k].call, ops[k].token, ops[k].now))
  }

  predicate ReadBefore(ops: seq<Op>, k: nat, call: nat, token: string, now: nat)
    requires k <= |ops|
  {
    Read(call, token, now) in ops[..k]
  }

  /** Op i wrote: it touched its token and was not coalesced. */
  ghost predicate Wrote(states: seq<Times>, ops: seq<Op>, i: nat)
    requires |states| == |ops| + 1 && i < |ops|
  {
    ops[i].Touch? && !Coalesced(states[i], ops[i].token, ops[i].now)
  }

  /** Op i is the last write of the token before op j touches it. */
  ghost predicate LastWrite(states: seq<Times>, ops: seq<Op>, i: nat, j: nat) {
    && |states| == |ops| + 1 && i < j < |ops| && Wrote(states, ops, i) && ops[j].Touch? && ops[i].token == ops[j].token
    && NoWrite(states, ops, i + 1, j, ops[j].token)
  }

  /** No op from `from` up to `to` writes for the token. */
  ghost predicate NoWrite(states: seq<Times>, ops: seq<Op>, from: nat, to: nat, token: string)
    requires |states| == |ops| + 1 && to <= |ops|
  {
    forall m :: from <= m < to && ops[m].Touch? && ops[m].token == token ==> !Wrote(states, ops, m)
  }

  /** Op k drops the timestamp of the token. */
  predicate Drops(states: seq<Times>, k: nat, token: string)
    requires k + 1 < |states|
  {
    token in states[k] && token !in states[k + 1]
  }

  /** Op k pushed a recent timestamp of the token out of a full map. */
  ghost predicate EvictedByCapacity(states: seq<Times>, ops: seq<Op>, k: nat, token: string)
    requires |states| == |ops| + 1 && k < |ops|
  {
    && Wrote(states, ops, k) && ops[k].token != token && Drops(states, k, token)
    && |Recent(states[k], ops[k].now)| >= MAX_ENTRIES
  }

  /** Op k is a failed write taking the token's timestamp back. */
  ghost predicate TakenBack(states: seq<Times>, ops: seq<Op>, k: nat, token: string)
    requires |states| == |ops| + 1 && k < |ops|
  {
    ops[k] == UpdateFailed(token) && Drops(states, k, token)
  }

  /** Op k pruned the token's timestamp as old: its reading is later than that of op j, but it got the lock first. */
  ghost predicate PrunedByLaterReading(states: seq<Times>, ops: seq<Op>, k: nat, j: nat, token: string)
    requires |states| == |ops| + 1 && k < j < |ops| && ops[j].Touch?
  {
    && Wrote(states, ops, k) && ops[k].token != token && Drops(states, k, token)
    && |states[k]| >= MAX_ENTRIES && ops[j].now < ops[k].now
  }

  /** Op k lost the timestamp that op j would have found, in one of three ways. */
  ghost predicate Lost(states: seq<Times>, ops: seq<Op>, k: nat, j: nat, token: string)
    requires |states| == |ops| + 1 && k < j < |ops| && ops[j].Touch?
  {
    || EvictedByCapacity(states, ops, k, token)
    || TakenBack(states, ops, k, token)
    || PrunedByLaterReading(states, ops, k, j, token)
  }

  ghost predicate LostBetween(states: seq<Times>, ops: seq<Op>, i: nat, n: nat, j: nat, token: string)
    requires |states| == |ops| + 1 && n <= j < |ops| && ops[j].Touch?
  {
    exists k :: i < k < n && Lost(states, ops, k, j, token)
  }

  ghost predicate DroppedBetween(states: seq<Times>, i: nat, n: nat, token: string)
    requires n < |states|
  {
    exists k :: i < k < n && Drops(states, k, token)
  }

  lemma WriteStamps(states: seq<Times>, ops: seq<Op>, i: nat)
    requires History(states, ops) && i < |ops| && Wrote(states, ops, i)
    ensures ops[i].token in states[i + 1] && states[i + 1][ops[i].token] == ops[i].now
  {
    assert Next(states[i], ops[i], states[i + 1]);
  }

  /** An op that does not write for the token leaves its timestamp alone or drops it. */
  lemma StampStaysOrGoes(states: seq<Times>, ops: seq<Op>, n: nat, token: string)
    requires History(states, ops) && n < |ops| && NoWrite(states, ops, n, n + 1, token)
    ensures token in states[n + 1] ==> token in states[n] && states[n + 1][token] == states[n][token]
  {
    assert Next(states[n], ops[n], states[n + 1]);
  }

  /** After the last write the timestamp is there until an op drops it, and then it is gone. */
  lemma {:induction false} StampedUntilDropped(states: seq<Times>, ops: seq<Op>, i: nat, j: nat, n: nat)
    requires History(states, ops) && LastWrite(states, ops, i, j) && i < n <= j
    ensures var token := ops[i].token;
      && (token in states[n] <==> !DroppedBetween(states, i, n, token))
      && (token in states[n] ==> states[n][token] == ops[i].now)
    decreases n
  {
    var token, m := ops[i].token, n - 1;
    if m == i {
      WriteStamps(states, ops, i);
    } else {
      StampedUntilDropped(states, ops, i, j, m);
      NoWriteAt(states, ops, i + 1, j, m, token);
      StampStaysOrGoes(states, ops, m, token);
      DroppedLater(states, i, m, token);
    }
  }

  lemma NoWriteAt(states: seq<Times>, ops: seq<Op>, from: nat, to: nat, n: nat, token: string)
    requires |states| == |ops| + 1 && from <= n < to <= |ops| && NoWrite(states, ops, from, to, token)
    ensures NoWrite(states, ops, n, n + 1, token)
  {
  }

  lemma DroppedLater(states: seq<Times>, i: nat, n: nat, token: string)
    requires i < n && n + 1 < |states|
    ensures DroppedBetween(states, i, n + 1, token) <==> DroppedBetween(states, i, n, token) || Drops(states, n, token)
  {
    if k :| i < k < n && Drops(states, k, token) {
      assert i < k < n + 1 && Drops(states, k, token);
    }
  }

  /** What drops a timestamp that a later touch would still have found young enough is one of the three causes. */
  lemma DropIsLoss(states: seq<Times>, ops: seq<Op>, k: nat, j: nat, token: string)
    requires History(states, ops) && k < j < |ops| && ops[j].Touch? && Drops(states, k, token)
    requires ops[j].now < states[k][token] + MINUTE
    ensures Lost(states, ops, k, j, token)
  {
    assert Next(states[k], ops[k], states[k + 1]);
  }

  /**
   The exact condition: a touch writes exactly when its reading is a minute or more after that of the last write for
   its token, or since then a full map pushed the timestamp out, a failed write took it back, or a call with a later
   reading got the lock first and pruned it.
   */
  lemma WritesAreCoalesced(states: seq<Times>, ops: seq<Op>, i: nat, j: nat)
    requires History(states, ops) && LastWrite(states, ops, i, j)
    ensures Wrote(states, ops, j) <==>
            ops[i].now + MINUTE <= ops[j].now || LostBetween(states, ops, i, j, j, ops[j].token)
  {
    var token := ops[j].token;
    StampedUntilDropped(states, ops, i, j, j);
    if ops[j].now < ops[i].now + MINUTE && DroppedBetween(states, i, j, token) {
      var k :| i < k < j && Drops(states, k, token);
      StampedUntilDropped(states, ops, i, j, k);
      DropIsLoss(states, ops, k, j, token);
    }
    if k :| i < k < j && Lost(states, ops, k, j, token) {
      assert Drops(states, k, token);
    }
  }

  /** A token that was never written for is written for at its first touch. */
  lemma FirstTouchWrites(states: seq<Times>, ops: seq<Op>, j: nat)
    requires History(states, ops) && j < |ops| && ops[j].Touch? && NoWrite(states, ops, 0, j, ops[j].token)
    ensures Wrote(states, ops, j)
  {
    NeverStamped(states, ops, j, ops[j].token);
  }

  lemma {:induction false} NeverStamped(states: seq<Times>, ops: seq<Op>, n: nat, token: string)
    requires History(states, ops) && n <= |ops| && NoWrite(states, ops, 0, n, token)
    ensures token !in states[n]
    decreases n
  {
    if n > 0 {
      NeverStamped(states, ops, n - 1, token);
      StampStaysOrGoes(states, ops, n - 1, token);
    }
  }

  /** The map never holds more than 4096 timestamps. */
  lemma {:induction false} TimesAreBounded(states: seq<Times>, ops: seq<Op>, n: nat)
    requires History(states, ops) && n < |states|
    ensures |states[n]| <= MAX_ENTRIES
  {
    if n > 0 {
      TimesAreBounded(states, ops, n - 1);
      assert Next(states[n - 1], ops[n - 1], states[n - 1 + 1]);
      BoundKept(states[n - 1], ops[n - 1], states[n]);
    }
  }

  /**
   Pruning: timestamps that stay are as they were; below the limit all stay; otherwise none that is over a minute
   old stays, what was dropped is no newer than anything that stays, and a young one is dropped only to make just the
   room for one.
   */
  lemma PruneDropsOldest(times: Times, now: nat, kept: Times)
    requires Prunes(times, now, kept)
    ensures forall token :: token in kept ==> token in times && kept[token] == times[token]
    ensures |times| < 4096 ==> kept == times
    ensures |times| >= 4096 ==> |kept| < 4096 && forall token :: token in kept ==> now - kept[token] <= MINUTE
    ensures forall d, k :: d in times && d !in kept && k in kept ==> times[d] <= times[k]
    ensures (exists d :: d in times && d !in kept && now - times[d] <= MINUTE) ==> |kept| == 4095
  {
    var recent := Recent(times, now);
    forall d, k | d in times && d !in kept && k in kept ensures times[d] <= times[k] {
      assert k in recent;
      if d in recent {
        assert recent[d] == times[d] && recent[k] == times[k];
      }
    }
  }

  lemma BoundKept(times: Times, op: Op, times': Times)
    requires Next(times, op, times') && |times| <= MAX_ENTRIES
    ensures |times'| <= MAX_ENTRIES
  {
    if op.Touch? && !Coalesced(times, op.token, op.now) {
      var kept :| Prunes(times, op.now, kept) && times' == kept[op.token := op.now];
      assert times'.Keys == kept.Keys + {op.token};
      assert |kept.Keys| == |kept| && |times'.Keys| == |times'|;
    } else {
      SubsetSize(times'.Keys, times.Keys);
      assert |times'.Keys| == |times'| && |times.Keys| == |times|;
    }
  }

  // ---------- each cause is real ----------

  datatype Log = Log(states: seq<Times>, ops: seq<Op>)

  /** A history on a clock that never goes back. */
  ghost predicate GoodLog(h: Log) {
    History(h.states, h.ops) && ClockGoesOn(h.ops)
  }

  predicate ClockGoesOn(ops: seq<Op>) {
    forall i, j :: 0 <= i < j < |ops| && ops[i].Read? && ops[j].Read? ==> ops[i].now <= ops[j].now
  }

  function Now(h: Log): Times
    requires |h.states| == |h.ops| + 1
  {
    h.states[|h.ops|]
  }

  /** The log h' goes on where h ends. */
  predicate Extends(h: Log, h': Log) {
    && |h.states| == |h.ops| + 1 && |h'.states| == |h'.ops| + 1 && |h.ops| <= |h'.ops|
    && (forall i :: 0 <= i < |h.ops| ==> h'.ops[i] == h.ops[i])
    && (forall i :: 0 <= i <= |h.ops| ==> h'.states[i] == h.states[i])
  }

  predicate ReadsUpTo(h: Log, now: nat) {
    forall i :: 0 <= i < |h.ops| && h.ops[i].Read? ==> h.ops[i].now <= now
  }

  /** A log goes on with a step of its last state. */
  lemma Goes(h: Log, op: Op, times: Times) returns (h': Log)
    requires GoodLog(h) && Next(Now(h), op, times)
    requires op.Read? ==> ReadsUpTo(h, op.now)
    requires op.Touch? ==> Read(op.call, op.token, op.now) in h.ops
    ensures GoodLog(h') && Extends(h, h') && |h'.ops| == |h.ops| + 1 && h'.ops[|h.ops|] == op && Now(h') == times
  {
    h' := Log(h.states + [times], h.ops + [op]);
    GoesOn(h, op, times, h');
  }

  lemma GoesOn(h: Log, op: Op, times: Times, h': Log)
    requires GoodLog(h) && Next(Now(h), op, times) && h' == Log(h.states + [times], h.ops + [op])
    requires op.Read? ==> ReadsUpTo(h, op.now)
    requires op.Touch? ==> Read(op.call, op.token, op.now) in h.ops
    ensures GoodLog(h')
  {
    forall i | 0 <= i < |h'.ops| ensures Next(h'.states[i], h'.ops[i], h'.states[i + 1]) {
      if i < |h.ops| {
        assert Next(h.states[i], h.ops[i], h.states[i + 1]);
      }
    }
    forall k | 0 <= k < |h'.ops| && h'.ops[k].Touch?
      ensures ReadBefore(h'.ops, k, h'.ops[k].call, h'.ops[k].token, h'.ops[k].now)
    {
      if k < |h.ops| {
        assert ReadBefore(h.ops, k, h.ops[k].call, h.ops[k].token, h.ops[k].now);
        assert h'.ops[..k] == h.ops[..k];
      } else {
        assert h'.ops[..k] == h.ops;
      }
    }
  }

  /** A call's reading, and its section right after, which writes. */
  lemma ReadAndTouch(h: Log, call: nat, token: string, now: nat) returns (h': Log)
    requires GoodLog(h) && ReadsUpTo(h, now) && |Now(h)| < MAX_ENTRIES && !Coalesced(Now(h), token, now)
    ensures GoodLog(h') && Extends(h, h') && ReadsUpTo(h', now) && |h'.ops| == |h.ops| + 2
    ensures h'.ops[|h.ops|] == Read(call, token, now) && h'.ops[|h.ops| + 1] == Touch(call, token, now)
    ensures h'.states[|h.ops| + 1] == Now(h) && Now(h') == Now(h)[token := now]
  {
    var h1 := Goes(h, Read(call, token, now), Now(h));
    assert Read(call, token, now) == h1.ops[|h.ops|];
    assert Prunes(Now(h1), now, Now(h1));
    h' := Goes(h1, Touch(call, token, now), Now(h)[token := now]);
  }

  /** Two writes of one token, less than a minute apart by their readings. */
  ghost predicate WroteTwice(h: Log, i: nat, j: nat) {
    && GoodLog(h) && i < j < |h.ops| && Wrote(h.states, h.ops, i) && Wrote(h.states, h.ops, j)
    && h.ops[i].token == h.ops[j].token && h.ops[j].now < h.ops[i].now + MINUTE
  }

  const NONE: Times := map[]

  lemma EmptyLog()
    ensures GoodLog(Log([NONE], [])) && Now(Log([NONE], [])) == NONE
  {
  }

  /** A failed write, even one from before the first of the two, can take the newer timestamp back. */
  lemma EarlierFailureAllowsSecondWrite()
    ensures exists h: Log, i: nat, j: nat ::
      WroteTwice(h, i, j) && i + 1 < j && TakenBack(h.states, h.ops, i + 1, h.ops[i].token)
  {
    EmptyLog();
    var h1 := ReadAndTouch(Log([NONE], []), 1, "t", 0);
    var h2 := ReadAndTouch(h1, 2, "t", MINUTE);
    assert Wrote(h2.states, h2.ops, 3);
    var h3 := Goes(h2, UpdateFailed("t"), Now(h2) - {"t"});
    var h4 := ReadAndTouch(h3, 3, "t", MINUTE + 1);
    assert h4.ops[3] == h3.ops[3] == h2.ops[3] && h4.states[3] == h3.states[3] == h2.states[3];
    assert h4.ops[4] == h3.ops[4];
    assert Wrote(h4.states, h4.ops, 6);
    assert WroteTwice(h4, 3, 6) && TakenBack(h4.states, h4.ops, 4, "t");
  }

  /** Names of any number of tokens. */
  function Xs(n: nat): (s: string)
    ensures |s| == n && forall c :: c in s ==> c == 'x'
  {
    if n == 0 then "" else "x" + Xs(n - 1)
  }

  /** The first n tokens, all stamped at time 0. */
  function Filled(n: nat): (times: Times)
    ensures |times| == n
    ensures forall token :: token in times ==> |token| < n && times[token] == 0 && forall c :: c in token ==> c == 'x'
    ensures n > 0 ==> "" in times
  {
    if n == 0 then NONE
    else
      var before := Filled(n - 1);
      assert Xs(n - 1) !in before;
      assert before[Xs(n - 1) := 0].Keys == before.Keys + {Xs(n - 1)};
      assert |before.Keys| == |before|;
      before[Xs(n - 1) := 0]
  }

  /** A log that has filled the map with n tokens at time 0, the empty one first, and without failures. */
  ghost predicate Fills(h: Log, n: nat) {
    && GoodLog(h) && Now(h) == Filled(n) && ReadsUpTo(h, 0) && NoFailures(h)
    && (n == 0 ==> h.ops == [])
    && (n > 0 ==> |h.ops| > 1 && h.ops[1] == Touch(0, "", 0) && Wrote(h.states, h.ops, 1))
  }

  predicate NoFailures(h: Log) {
    forall k :: 0 <= k < |h.ops| ==> !h.ops[k].UpdateFailed?
  }

  lemma {:induction false} Fill(n: nat) returns (h: Log)
    requires n <= MAX_ENTRIES
    ensures Fills(h, n)
  {
    if n == 0 {
      EmptyLog();
      h := Log([NONE], []);
    } else {
      var before := Fill(n - 1);
      assert Xs(n - 1) !in Filled(n - 1);
      h := ReadAndTouch(before, n - 1, Xs(n - 1), 0);
      assert forall k :: 0 <= k < |before.ops| ==> h.ops[k] == before.ops[k];
    }
  }

  /** A full map of timestamps that are all old by the later of two readings. */
  lemma PrunedEmpty(times: Times)
    requires |times| == MAX_ENTRIES && "u" !in times && forall token :: token in times ==> times[token] == 0
    ensures Touches(times, "u", MINUTE + 1, NONE["u" := MINUTE + 1]) && !Coalesced(times, "u", MINUTE + 1)
  {
    assert Recent(times, MINUTE + 1) == NONE;
    assert Prunes(times, MINUTE + 1, NONE);
  }

  /** A log whose map is full of timestamps of time 0, the empty token's written first. */
  ghost predicate FullLog(h: Log) {
    && GoodLog(h) && ReadsUpTo(h, 0) && NoFailures(h) && |h.ops| > 1
    && h.ops[1] == Touch(0, "", 0) && Wrote(h.states, h.ops, 1)
    && |Now(h)| == MAX_ENTRIES && "" in Now(h) && "u" !in Now(h)
    && forall token :: token in Now(h) ==> Now(h)[token] == 0
  }

  lemma FilledFacts(n: nat, times: Times)
    requires times == Filled(n) && n > 0
    ensures |times| == n && "" in times && "u" !in times && forall token :: token in times ==> times[token] == 0
  {
    assert 'u' in "u";
  }

  lemma FilledIsFull(h: Log, n: nat)
    requires Fills(h, n) && n == MAX_ENTRIES
    ensures FullLog(h)
  {
    FilledFacts(n, Now(h));
  }

  lemma FillAll(n: nat) returns (h: Log)
    requires n == MAX_ENTRIES
    ensures FullLog(h)
  {
    h := Fill(n);
    FilledIsFull(h, n);
  }

  /** A call reads the clock just inside the minute, and another reads it a little later. */
  lemma TwoReadings(full: Log) returns (h: Log)
    requires FullLog(full)
    ensures GoodLog(h) && Extends(full, h) && NoFailures(h) && |h.ops| == |full.ops| + 2 && Now(h) == Now(full)
    ensures var n := |full.ops|;
      h.ops[n] == Read(n, "", MINUTE - 1) && h.ops[n + 1] == Read(n + 1, "u", MINUTE + 1)
  {
    var n := |full.ops|;
    var h1 := Goes(full, Read(n, "", MINUTE - 1), Now(full));
    h := Goes(h1, Read(n + 1, "u", MINUTE + 1), Now(full));
    forall k | 0 <= k < n ensures h.ops[k] == full.ops[k] {
      assert h1.ops[k] == full.ops[k];
    }
  }

  /** The other call gets the lock first, and finds every timestamp old. */
  lemma LaterFirst(full: Log, h2: Log) returns (h: Log)
    requires FullLog(full) && GoodLog(h2) && Extends(full, h2) && |h2.ops| == |full.ops| + 2
    requires NoFailures(h2) && Now(h2) == Now(full) && h2.ops[|full.ops| + 1] == Read(|full.ops| + 1, "u", MINUTE + 1)
    ensures GoodLog(h) && Extends(h2, h) && NoFailures(h) && |h.ops| == |full.ops| + 3
    ensures h.ops[|full.ops| + 2] == Touch(|full.ops| + 1, "u", MINUTE + 1) && Now(h) == NONE["u" := MINUTE + 1]
    ensures Wrote(h.states, h.ops, |full.ops| + 2)
  {
    PrunedEmpty(Now(full));
    h := Goes(h2, Touch(|full.ops| + 1, "u", MINUTE + 1), NONE["u" := MINUTE + 1]);
    assert h.states[|full.ops| + 2] == Now(full);
  }

  /** The first call then finds no timestamp of its token, and writes. */
  lemma Overtake() returns (h: Log, j: nat)
    ensures WroteTwice(h, 1, j) && 2 < j && NoFailures(h) && PrunedByLaterReading(h.states, h.ops, j - 1, j, "")
    ensures h.ops[1].token == ""
  {
    var full := FillAll(MAX_ENTRIES);
    var n := |full.ops|;
    var h2 := TwoReadings(full);
    var h3 := LaterFirst(full, h2);
    assert h3.ops[n] == h2.ops[n];
    assert Prunes(Now(h3), MINUTE - 1, Now(h3));
    h := Goes(h3, Touch(n, "", MINUTE - 1), Now(h3)["" := MINUTE - 1]);
    j := n + 3;
    FirstWriteStays(full, h2, h3, h);
    LaterWriteStays(h3, h, n + 2);
    assert Wrote(h.states, h.ops, j);
    assert h.states[n + 2] == h3.states[n + 2] == h2.states[n + 2] == Now(full);
  }

  lemma LaterWriteStays(h: Log, h': Log, k: nat)
    requires Extends(h, h') && k < |h.ops| && Wrote(h.states, h.ops, k)
    ensures Wrote(h'.states, h'.ops, k) && h'.ops[k] == h.ops[k] && h'.states[k] == h.states[k]
    ensures h'.states[k + 1] == h.states[k + 1]
  {
  }

  lemma FirstWriteStays(full: Log, h2: Log, h3: Log, h: Log)
    requires FullLog(full) && Extends(full, h2) && Extends(h2, h3) && Extends(h3, h)
    ensures h.ops[1] == Touch(0, "", 0) && Wrote(h.states, h.ops, 1)
  {
    LaterWriteStays(full, h2, 1);
    LaterWriteStays(h2, h3, 1);
    LaterWriteStays(h3, h, 1);
  }

  /** A later reading that gets the lock first can prune the timestamp, with no failure and no recent one pushed out. */
  lemma LaterReadingAllowsSecondWrite()
    ensures exists h: Log, i: nat, j: nat ::
      WroteTwice(h, i, j) && i + 1 < j && NoFailures(h)
          && PrunedByLaterReading(h.states, h.ops, j - 1, j, h.ops[i].token)
  {
    var h, j := Overtake();
    assert WroteTwice(h, 1, j);
  }

  // ---------- the first cause ----------

  /** In a full map of young timestamps, all equally old, any one can be pushed out by a new token. */
  lemma PushesOut(times: Times, out: string, token: string, now: nat)
    requires |times| == MAX_ENTRIES && out in times && token !in times && now < MINUTE
    requires forall t :: t in times ==> times[t] == 0
    ensures Touches(times, token, now, (times - {out})[token := now]) && !Coalesced(times, token, now)
    ensures |Recent(times, now)| >= MAX_ENTRIES
  {
    var kept := times - {out};
    assert Recent(times, now) == times;
    assert kept.Keys == times.Keys - {out} && |kept.Keys| == |kept| && |times.Keys| == |times|;
    assert Prunes(times, now, kept);
  }

  lemma Replaced(times: Times, out: string, token: string)
    requires out in times && token !in times && forall t :: t in times ==> times[t] == 0
    ensures var times' := (times - {out})[token := 0];
      |times'| == |times| && out !in times' && token in times' && forall t :: t in times' ==> times'[t] == 0
  {
    var times' := (times - {out})[token := 0];
    assert times'.Keys == times.Keys - {out} + {token};
    assert |times'.Keys| == |times'| && |times.Keys| == |times|;
  }

  /** A call that reads the clock and gets the lock at once, with a step that is given. */
  lemma ReadThenTouch(h: Log, call: nat, token: string, now: nat, times: Times) returns (h': Log)
    requires GoodLog(h) && ReadsUpTo(h, now) && NoFailures(h)
    requires Touches(Now(h), token, now, times) && !Coalesced(Now(h), token, now)
    ensures GoodLog(h') && Extends(h, h') && ReadsUpTo(h', now) && NoFailures(h') && |h'.ops| == |h.ops| + 2
    ensures h'.ops[|h.ops| + 1] == Touch(call, token, now) && Now(h') == times
    ensures h'.states[|h.ops| + 1] == Now(h) && Wrote(h'.states, h'.ops, |h.ops| + 1)
  {
    var h1 := Goes(h, Read(call, token, now), Now(h));
    assert Read(call, token, now) == h1.ops[|h.ops|];
    h' := Goes(h1, Touch(call, token, now), times);
    ExtendsTwice(h, h1, h', now);
  }

  /** Two more ops, a reading and a touch. */
  lemma ExtendsTwice(h: Log, h1: Log, h': Log, now: nat)
    requires Extends(h, h1) && Extends(h1, h') && |h1.ops| == |h.ops| + 1 && |h'.ops| == |h.ops| + 2
    requires ReadsUpTo(h, now) && NoFailures(h)
    requires h1.ops[|h.ops|].Read? && h1.ops[|h.ops|].now == now && h'.ops[|h1.ops|].Touch?
    ensures Extends(h, h') && ReadsUpTo(h', now) && NoFailures(h')
    ensures h'.states[|h.ops| + 1] == Now(h1) && h'.ops[|h.ops|] == h1.ops[|h.ops|]
  {
    forall k | 0 <= k < |h'.ops| ensures k < |h.ops| ==> h'.ops[k] == h.ops[k] {
      if k < |h.ops| {
        assert h'.ops[k] == h1.ops[k];
      }
    }
    forall k | 0 <= k <= |h.ops| ensures h'.states[k] == h.states[k] {
      assert h'.states[k] == h1.states[k];
    }
  }

  lemma ReadsLater(h: Log, now: nat, later: nat)
    requires ReadsUpTo(h, now) && now <= later
    ensures ReadsUpTo(h, later)
  {
  }

  /** A new token pushes the first one's timestamp out of the full map, and the first one is written for again. */
  lemma PushOut() returns (h: Log, j: nat)
    ensures WroteTwice(h, 1, j) && 1 < j - 2 && NoFailures(h) && EvictedByCapacity(h.states, h.ops, j - 2, "")
    ensures h.ops[1].token == ""
  {
    var full := FillAll(MAX_ENTRIES);
    var n := |full.ops|;
    PushesOut(Now(full), "", "u", 0);
    Replaced(Now(full), "", "u");
    var h1 := ReadThenTouch(full, n, "u", 0, (Now(full) - {""})["u" := 0]);
    PushesOut(Now(h1), "u", "", 1);
    ReadsLater(h1, 0, 1);
    h := ReadThenTouch(h1, n + 1, "", 1, (Now(h1) - {"u"})["" := 1]);
    j := n + 3;
    LaterWriteStays(full, h1, 1);
    LaterWriteStays(h1, h, 1);
    LaterWriteStays(h1, h, n + 1);
  }

  /** A full map can push a young timestamp out, with no failure and no reading out of order. */
  lemma FullMapAllowsSecondWrite()
    ensures exists h: Log, i: nat, j: nat ::
      WroteTwice(h, i, j) && i < j - 2 && NoFailures(h) && EvictedByCapacity(h.states, h.ops, j - 2, h.ops[i].token)
  {
    var h, j := PushOut();
    assert WroteTwice(h, 1, j);
  }
}
