/**
 The daily route probe (`agent/routeprobe/state.go`): a probe is reserved on disk before it
 starts, and a crash may fall between any two steps.  Times are nanoseconds; 0 is the zero time.
 */
module RouteProbe {
  import opened Prelude

  const INTERVAL := 24 * 3600 * 1_000_000_000
  const SKEW := 5 * 60 * 1_000_000_000
  const MAX_STATE := 64 * 1024

  datatype Target = Target(carrier: string, ip: string)

  datatype ProbeResult = ProbeResult(target: Target, error: string)

  datatype Saved = Saved(targets: seq<Target>, probedAt: int, results: seq<ProbeResult>)

  /**
   What is at the state file's path: a saved state and its encoded size, other text, or something that cannot be opened.
   */
  datatype File = Missing | Unopenable | OtherText | Text(state: Saved, size: nat)

  datatype Decision = Refuse | Cached(state: Saved) | Probe

  function Interrupted(targets: seq<Target>): seq<ProbeResult> {
    seq(|targets|, i requires 0 <= i < |targets| =>
          ProbeResult(targets[i], "previous probe interrupted before results were saved"))
  }

  function Reservation(targets: seq<Target>, now: int): Saved {
    Saved(targets, now, Interrupted(targets))
  }

  /** What a call does after reading the file. */
  function Decide(file: File, targets: seq<Target>, now: int): Decision {
    match file
    case Missing => Probe
    case Unopenable => Refuse
    case OtherText => Refuse
    case Text(state, size) =>
      if size > MAX_STATE then Refuse
      else if state.probedAt == 0 || |state.targets| == 0 || state.probedAt > now + SKEW then Refuse
      else if state.targets == targets && state.probedAt != 0 && now < state.probedAt + INTERVAL then Cached(state)
      else Probe
  }

  /**
   The file can be used: it is not over 64 KiB long, has targets, and its time is neither zero nor more than five
   minutes ahead of the clock.
   */
  predicate Usable(file: File, now: int) {
    && file.Text? && file.size <= 65536 && file.state.targets != []
    && file.state.probedAt != 0 && file.state.probedAt <= now + 5 * 60 * 1_000_000_000
  }

  predicate WithinADay(state: Saved, now: int) {
    now < state.probedAt + 24 * 60 * 60 * 1_000_000_000
  }

  /** The three outcomes, by the fields of the file. */
  lemma DecidesExactly(file: File, targets: seq<Target>, now: int)
    ensures Decide(file, targets, now) == Refuse <==> !file.Missing? && !Usable(file, now)
    ensures forall state :: Decide(file, targets, now) == Cached(state) <==>
              Usable(file, now) && state == file.state && state.targets == targets && WithinADay(state, now)
    ensures Decide(file, targets, now) == Probe <==>
            file.Missing? || (Usable(file, now) && !(file.state.targets == targets && WithinADay(file.state, now)))
  {
  }

  /** One uninterrupted call. */
  class RouteState {
    var file: File
    var probes: seq<int>

    constructor (file: File)
      ensures this.file == file && probes == []
    {
      this.file, probes := file, [];
    }

    /** Temporary file, sync, rename: all of the new state or none of it. */
    method WriteState(state: Saved, size: nat, ok: bool) returns (done: bool)
      modifies `file
      ensures done == ok && file == if ok then Text(state, size) else old(file)
    {
      if ok {
        file := Text(state, size);
      }
      return ok;
    }

    /** `size`, `ok` and `size'`, `ok'` are the encoded sizes and the outcomes of the two writes. */
    method CachedProbe(targets: seq<Target>, now: int, results: seq<ProbeResult>,
                       size: nat, ok: bool, size': nat, ok': bool) returns (r: Option<Saved>)
      modifies this
      ensures var d := Decide(old(file), targets, now);
        && (d.Probe? && ok ==>
              && probes == old(probes) + [now] && r == Some(Saved(targets, now, results))
              && file == if ok' then Text(Saved(targets, now, results), size')
                  else Text(Reservation(targets, now), size))
        && (d.Probe? && !ok ==> probes == old(probes) && file == old(file) && r == None)
        && (!d.Probe? ==> probes == old(probes) && file == old(file) && r == if d.Cached? then Some(d.state) else None)
      ensures Usable(old(file), now) && old(file).state.targets == targets && WithinADay(old(file).state, now) ==>
        r == Some(old(file).state) && file == old(file) && probes == old(probes)
      ensures !old(file).Missing? && !Usable(old(file), now) ==> r == None && file == old(file) && probes == old(probes)
    {
      DecidesExactly(file, targets, now);
      match file {
        case Text(state, n) =>
          if n > MAX_STATE {
            return None;
          }
          if state.probedAt == 0 || |state.targets| == 0 || state.probedAt > now + SKEW {
            return None;
          }
          if state.targets == targets && state.probedAt != 0 && now < state.probedAt + INTERVAL {
            return Some(state);
          }
        case Missing =>
        case Unopenable =>
          return None;
        case OtherText =>
          return None;
      }
      var state := Saved(targets, now, []);
      for i := 0 to |targets|
        invariant state.targets == targets && state.probedAt == now
        invariant state.results == Interrupted(targets)[..i]
      {
        state := state.(results := state.results +
                        [ProbeResult(targets[i], "previous probe interrupted before results were saved")]);
      }
      var saved := WriteState(state, size, ok);
      if !saved {
        return None;
      }
      probes := probes + [now];
      state := state.(results := results);
      saved := WriteState(state, size', ok');
      return Some(state);
    }
  }

  // ---------- calls cut off anywhere ----------

  /** Where the running call is; a crash forgets it. */
  datatype Pc =
    | Idle
    | Called(targets: seq<Target>, now: int)
    | Reserving(targets: seq<Target>, now: int)
    | Staged(targets: seq<Target>, now: int)
    | Reserved(targets: seq<Target>, now: int)
    | Probing(targets: seq<Target>, now: int)
    | Saving(state: Saved)
    | SaveStaged(state: Saved)

  datatype World = World(file: File, pc: Pc)

  datatype Event =
    | Call(targets: seq<Target>, now: int)
    | ReadAndDecide
    | StageReservation
    | RenameReservation(size: nat)
    | StartProbe
    | EndProbe(results: seq<ProbeResult>)
    | StageResults
    | RenameResults(size: nat)
    | FailOrCrash

  predicate Enabled(w: World, e: Event) {
    match e
    case Call(_, _) => w.pc.Idle?
    case ReadAndDecide => w.pc.Called?
    case StageReservation => w.pc.Reserving?
    case RenameReservation(_) => w.pc.Staged?
    case StartProbe => w.pc.Reserved?
    case EndProbe(_) => w.pc.Probing?
    case StageResults => w.pc.Saving?
    case RenameResults(_) => w.pc.SaveStaged?
    case FailOrCrash => true
  }

  function Step(w: World, e: Event): World
    requires Enabled(w, e)
  {
    match e
    case Call(targets, now) => w.(pc := Called(targets, now))
    case ReadAndDecide =>
      w.(pc := if Decide(w.file, w.pc.targets, w.pc.now).Probe? then Reserving(w.pc.targets, w.pc.now) else Idle)
    case StageReservation => w.(pc := Staged(w.pc.targets, w.pc.now))
    case RenameReservation(size) =>
      w.(file := Text(Reservation(w.pc.targets, w.pc.now), size), pc := Reserved(w.pc.targets, w.pc.now))
    case StartProbe => w.(pc := Probing(w.pc.targets, w.pc.now))
    case EndProbe(results) => w.(pc := Saving(Saved(w.pc.targets, w.pc.now, results)))
    case StageResults => w.(pc := SaveStaged(w.pc.state))
    case RenameResults(size) => w.(file := Text(w.pc.state, size), pc := Idle)
    case FailOrCrash => w.(pc := Idle)
  }

  predicate Legal(w: World, run: seq<Event>)
    decreases |run|
  {
    run == [] || (Enabled(w, run[0]) && Legal(Step(w, run[0]), run[1..]))
  }

  function Run(w: World, run: seq<Event>): World
    requires Legal(w, run)
    decreases |run|
  {
    if run == [] then w else Run(Step(w, run[0]), run[1..])
  }

  /** The file on disk holds a reservation for these targets at this time. */
  predicate HoldsReservation(file: File, targets: seq<Target>, now: int) {
    file.Text? && file.state.targets == targets && file.state.probedAt == now
  }

  /** No probe starts without a reservation for it on disk, whatever targets the calls had. */
  lemma {:induction false} ProbesAreReserved(w: World, run: seq<Event>)
    requires w.pc.Reserved? ==> HoldsReservation(w.file, w.pc.targets, w.pc.now)
    requires Legal(w, run) && Enabled(Run(w, run), StartProbe)
    ensures HoldsReservation(Run(w, run).file, Run(w, run).pc.targets, Run(w, run).pc.now)
    decreases |run|
  {
    if run != [] {
      ProbesAreReserved(Step(w, run[0]), run[1..]);
    }
  }

  // ---------- probes of the same targets ----------

  /** Some event of the run reserves a probe of other targets. */
  predicate ReservesOthers(w: World, run: seq<Event>, targets: seq<Target>)
    requires Legal(w, run)
    decreases |run|
  {
    run != [] &&
    ((run[0].RenameReservation? && w.pc.targets != targets) || ReservesOthers(Step(w, run[0]), run[1..], targets))
  }

  /** These targets were probed at time t, and what is on disk and in hand says so. */
  predicate Remembers(w: World, targets: seq<Target>, t: int) {
    && w.file.Text? && w.file.state.targets == targets && t <= w.file.state.probedAt
    && match w.pc
       case Idle => true
       case Called(_, _) => true
       case Reserving(ts, now) => ts == targets ==> t + INTERVAL <= now
       case Staged(ts, now) => ts == targets ==> t + INTERVAL <= now
       case Reserved(ts, now) => ts == targets && t + INTERVAL <= now
       case Probing(ts, now) => ts == targets && t <= now
       case Saving(state) => state.targets == targets && t <= state.probedAt
       case SaveStaged(state) => state.targets == targets && t <= state.probedAt
  }

  lemma {:induction false} RememberedUntilOthers(w: World, run: seq<Event>, targets: seq<Target>, t: int)
    requires Remembers(w, targets, t) && Legal(w, run) && !ReservesOthers(w, run, targets)
    ensures Remembers(Run(w, run), targets, t)
    decreases |run|
  {
    if run != [] {
      RememberedUntilOthers(Step(w, run[0]), run[1..], targets, t);
    }
  }

  /** A run to a probe, the probe, and a run to another probe of the same targets. */
  predicate ProbedTwice(file: File, before: seq<Event>, between: seq<Event>) {
    && Legal(World(file, Idle), before) && Enabled(Run(World(file, Idle), before), StartProbe)
    && var first := Run(World(file, Idle), before);
    && Legal(Step(first, StartProbe), between) && Enabled(Run(Step(first, StartProbe), between), StartProbe)
    && Run(Step(first, StartProbe), between).pc.targets == first.pc.targets
  }

  function FirstProbe(file: File, before: seq<Event>, between: seq<Event>): World
    requires ProbedTwice(file, before, between)
  {
    Run(World(file, Idle), before)
  }

  function SecondProbe(file: File, before: seq<Event>, between: seq<Event>): World
    requires ProbedTwice(file, before, between)
  {
    Run(Step(FirstProbe(file, before, between), StartProbe), between)
  }

  /**
   Crash-safe spacing: whatever is in the file at first, whatever targets the calls have, wherever they are cut off and
   however the clock moves, two probes of the same targets are 24 hours apart, or one of other targets was reserved
   between them.
   */
  lemma ProbesAreADayApart(file: File, before: seq<Event>, between: seq<Event>)
    requires ProbedTwice(file, before, between)
    ensures var first, second := FirstProbe(file, before, between), SecondProbe(file, before, between);
      || first.pc.now + INTERVAL <= second.pc.now
      || ReservesOthers(Step(first, StartProbe), between, first.pc.targets)
  {
    var first := FirstProbe(file, before, between);
    ProbesAreReserved(World(file, Idle), before);
    if !ReservesOthers(Step(first, StartProbe), between, first.pc.targets) {
      RememberedUntilOthers(Step(first, StartProbe), between, first.pc.targets, first.pc.now);
    }
  }

  predicate FixedTargets(run: seq<Event>, targets: seq<Target>) {
    forall e :: e in run && e.Call? ==> e.targets == targets
  }

  /** The running call, if any, has these targets. */
  predicate InHand(pc: Pc, targets: seq<Target>) {
    match pc
    case Idle => true
    case Saving(state) => state.targets == targets
    case SaveStaged(state) => state.targets == targets
    case _ => pc.targets == targets
  }

  lemma {:induction false} FixedTargetsReserveNoOthers(w: World, run: seq<Event>, targets: seq<Target>)
    requires InHand(w.pc, targets) && Legal(w, run) && FixedTargets(run, targets)
    ensures InHand(Run(w, run).pc, targets) && !ReservesOthers(w, run, targets)
    decreases |run|
  {
    if run != [] {
      FixedTargetsReserveNoOthers(Step(w, run[0]), run[1..], targets);
    }
  }

  /** So with targets that do not change, any two probes are 24 hours apart. */
  lemma FixedTargetsAreADayApart(file: File, before: seq<Event>, between: seq<Event>, targets: seq<Target>)
    requires ProbedTwice(file, before, between) && FixedTargets(before, targets) && FixedTargets(between, targets)
    ensures FirstProbe(file, before, between).pc.now + INTERVAL <= SecondProbe(file, before, between).pc.now
  {
    var first := FirstProbe(file, before, between);
    FixedTargetsReserveNoOthers(World(file, Idle), before, targets);
    FixedTargetsReserveNoOthers(Step(first, StartProbe), between, targets);
    ProbesAreADayApart(file, before, between);
  }

  // ---------- other targets between ----------

  /** A call up to its reservation, and what follows. */
  function CallThen(targets: seq<Target>, now: int, rest: seq<Event>): seq<Event> {
    [Call(targets, now)] + ([ReadAndDecide] + ([StageReservation] + ([RenameReservation(0)] + rest)))
  }

  function AfterCall(targets: seq<Target>, now: int): World {
    World(Text(Reservation(targets, now), 0), Reserved(targets, now))
  }

  lemma EventThen(w: World, e: Event, rest: seq<Event>)
    requires Enabled(w, e) && Legal(Step(w, e), rest)
    ensures Legal(w, [e] + rest) && Run(w, [e] + rest) == Run(Step(w, e), rest)
  {
    assert ([e] + rest)[1..] == rest;
  }

  /** A call that decides to probe gets as far as its reservation. */
  lemma CallGoes(w: World, targets: seq<Target>, now: int, rest: seq<Event>)
    requires w.pc.Idle? && Decide(w.file, targets, now).Probe? && Legal(AfterCall(targets, now), rest)
    ensures Legal(w, CallThen(targets, now, rest))
    ensures Run(w, CallThen(targets, now, rest)) == Run(AfterCall(targets, now), rest)
  {
    EventThen(w.(pc := Staged(targets, now)), RenameReservation(0), rest);
    EventThen(w.(pc := Reserving(targets, now)), StageReservation, [RenameReservation(0)] + rest);
    EventThen(w.(pc := Called(targets, now)), ReadAndDecide, [StageReservation] + ([RenameReservation(0)] + rest));
    EventThen(w, Call(targets, now), [ReadAndDecide] + ([StageReservation] + ([RenameReservation(0)] + rest)));
  }

  /** After a probe, an interruption and another call. */
  lemma InterruptedThenCall(w: World, targets: seq<Target>, now: int, rest: seq<Event>)
    requires Decide(w.file, targets, now).Probe? && Legal(AfterCall(targets, now), rest)
    ensures Legal(w, [FailOrCrash] + CallThen(targets, now, rest))
    ensures Run(w, [FailOrCrash] + CallThen(targets, now, rest)) == Run(AfterCall(targets, now), rest)
  {
    CallGoes(w.(pc := Idle), targets, now, rest);
    EventThen(w, FailOrCrash, CallThen(targets, now, rest));
  }

  /** A call for other targets in between lets the same targets be probed again at once. */
  lemma OtherTargetsAllowSecondProbe(a: seq<Target>, b: seq<Target>)
    requires a != [] && b != [] && a != b
    ensures exists before, between ::
      && ProbedTwice(Missing, before, between)
      && SecondProbe(Missing, before, between).pc.now == FirstProbe(Missing, before, between).pc.now + 2
  {
    CallGoes(World(Missing, Idle), a, 1, []);
    var third := [FailOrCrash] + CallThen(a, 3, []);
    InterruptedThenCall(AfterCall(b, 2), a, 3, []);
    InterruptedThenCall(Step(AfterCall(a, 1), StartProbe), b, 2, third);
    assert ProbedTwice(Missing, CallThen(a, 1, []), [FailOrCrash] + CallThen(b, 2, third));
  }

  // ---------- exactly when a call probes ----------

  predicate NoReservation(run: seq<Event>) {
    forall e :: e in run ==> !e.RenameReservation?
  }

  /** What is on disk, and what a call past its reservation has in hand, is of this reservation. */
  predicate LastReserved(w: World, targets: seq<Target>, t: int) {
    && HoldsReservation(w.file, targets, t)
    && match w.pc
       case Reserved(ts, now) => ts == targets && now == t
       case Probing(ts, now) => ts == targets && now == t
       case Saving(state) => state.targets == targets && state.probedAt == t
       case SaveStaged(state) => state.targets == targets && state.probedAt == t
       case _ => true
  }

  lemma {:induction false} LastReservationStays(w: World, run: seq<Event>, targets: seq<Target>, t: int)
    requires LastReserved(w, targets, t) && Legal(w, run) && NoReservation(run)
    ensures LastReserved(Run(w, run), targets, t)
    decreases |run|
  {
    if run != [] {
      LastReservationStays(Step(w, run[0]), run[1..], targets, t);
    }
  }

  /**
   The exact condition: after a reservation, wherever its call and later ones are cut off, a call decides to probe
   exactly when the file can be used (not too long, and with targets and a time that is neither zero nor ahead of the
   clock), and the call has other targets or comes a day after the reservation.
   */
  lemma CallsProbeExactly(w: World, size: nat, later: seq<Event>)
    requires w.pc.Staged? && Legal(Step(w, RenameReservation(size)), later) && NoReservation(later)
    requires Run(Step(w, RenameReservation(size)), later).pc.Called?
    ensures var at := Run(Step(w, RenameReservation(size)), later);
      && at.file.Text?
      && (Step(at, ReadAndDecide).pc.Reserving? <==>
            && at.file.size <= MAX_STATE && w.pc.targets != [] && w.pc.now != 0 && w.pc.now <= at.pc.now + SKEW
            && (at.pc.targets != w.pc.targets || w.pc.now + INTERVAL <= at.pc.now))
  {
    LastReservationStays(Step(w, RenameReservation(size)), later, w.pc.targets, w.pc.now);
  }

  // ---------- what later calls of the day get ----------

  /** From a staged reservation to the saved results. */
  function Completion(size: nat, results: seq<ProbeResult>, size': nat): seq<Event> {
    [RenameReservation(size)] + ([StartProbe] + ([EndProbe(results)] + ([StageResults] + [RenameResults(size')])))
  }

  lemma CompletionLeaves(w: World, size: nat, results: seq<ProbeResult>, size': nat)
    requires w.pc.Staged?
    ensures var run := Completion(size, results, size');
      Legal(w, run) && Run(w, run) == World(Text(Saved(w.pc.targets, w.pc.now, results), size'), Idle)
  {
    var Staged(targets, now) := w.pc;
    var file := Text(Reservation(targets, now), size);
    var state := Saved(targets, now, results);
    assert [RenameResults(size')] == [RenameResults(size')] + [];
    EventThen(World(file, SaveStaged(state)), RenameResults(size'), []);
    EventThen(World(file, Saving(state)), StageResults, [RenameResults(size')]);
    EventThen(World(file, Probing(targets, now)), EndProbe(results), [StageResults] + [RenameResults(size')]);
    EventThen(World(file, Reserved(targets, now)), StartProbe,
              [EndProbe(results)] + ([StageResults] + [RenameResults(size')]));
    EventThen(w, RenameReservation(size),
              [StartProbe] + ([EndProbe(results)] + ([StageResults] + [RenameResults(size')])));
  }

  /** The running call, if any, has not reserved. */
  predicate NotReserved(pc: Pc) {
    pc.Idle? || pc.Called? || pc.Reserving? || pc.Staged?
  }

  lemma {:induction false} FileStays(w: World, run: seq<Event>)
    requires NotReserved(w.pc) && Legal(w, run) && NoReservation(run)
    ensures Run(w, run).file == w.file
    decreases |run|
  {
    if run != [] {
      FileStays(Step(w, run[0]), run[1..]);
    }
  }

  /** After a completed call, a later call of the day for its targets gets its results, if none reserved since. */
  lemma CompletedCallAnswers(w: World, size: nat, results: seq<ProbeResult>, size': nat, later: seq<Event>)
    requires w.pc.Staged?
    requires var saved := World(Text(Saved(w.pc.targets, w.pc.now, results), size'), Idle);
      Legal(saved, later) && NoReservation(later) && Run(saved, later).pc.Called?
    ensures var run := Completion(size, results, size');
      Legal(w, run) && Legal(Run(w, run), later) && Run(Run(w, run), later).pc.Called?
      && var at := Run(Run(w, run), later);
      && (Usable(at.file, at.pc.now) && at.pc.targets == w.pc.targets && at.pc.now < w.pc.now + INTERVAL ==>
            Decide(at.file, at.pc.targets, at.pc.now) == Cached(Saved(w.pc.targets, w.pc.now, results)))
  {
    CompletionLeaves(w, size, results, size');
    FileStays(Run(w, Completion(size, results, size')), later);
  }

  predicate NoResults(run: seq<Event>) {
    forall e :: e in run ==> !e.RenameResults?
  }

  lemma {:induction false} ReservationStays(w: World, run: seq<Event>)
    requires Legal(w, run) && NoReservation(run) && NoResults(run)
    ensures Run(w, run).file == w.file
    decreases |run|
  {
    if run != [] {
      ReservationStays(Step(w, run[0]), run[1..]);
    }
  }

  /** After an interrupted one, wherever it was cut off, it gets one interruption record for each target. */
  lemma InterruptedCallAnswers(w: World, size: nat, later: seq<Event>)
    requires w.pc.Staged? && Legal(Step(w, RenameReservation(size)), later) && NoReservation(later) && NoResults(later)
    requires Run(Step(w, RenameReservation(size)), later).pc.Called?
    ensures var at := Run(Step(w, RenameReservation(size)), later);
      && (Usable(at.file, at.pc.now) && at.pc.targets == w.pc.targets && at.pc.now < w.pc.now + INTERVAL ==>
            && var d := Decide(at.file, at.pc.targets, at.pc.now);
            && d.Cached? && d.state.targets == w.pc.targets && d.state.probedAt == w.pc.now
            && |d.state.results| == |w.pc.targets|
            && forall k :: 0 <= k < |w.pc.targets| ==>
              d.state.results[k]
                == ProbeResult(w.pc.targets[k], "previous probe interrupted before results were saved"))
  {
    ReservationStays(Step(w, RenameReservation(size)), later);
  }
}
