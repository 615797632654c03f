/**
 Monthly reset dates with roll-over (`agent/utils/utils.go`), on the Gregorian calendar and
 in one fixed offset from UTC.
 */
module ResetDate {

  /** That many days, in nanoseconds. */
  function Days(n: int): int {
    n * 86_400_000_000_000
  }

  /** A local time: calendar date and nanoseconds since midnight. */
  datatype Stamp = Stamp(year: int, month: int, day: int, nanos: int)

  // ---------- the calendar ----------

  predicate Leap(year: int) {
    year % 4 == 0 && (year % 100 != 0 || year % 400 == 0)
  }

  function DaysIn(year: int, month: int): int
    requires 1 <= month <= 12
  {
    if month == 2 then (if Leap(year) then 29 else 28)
    else if month == 4 || month == 6 || month == 9 || month == 11 then 30
    else 31
  }

  /** Months counted through the years. */
  function MonthIndex(year: int, month: int): int {
    12 * year + month - 1
  }

  function YearOf(k: int): int {
    k / 12
  }

  function MonthOf(k: int): (m: int)
    ensures 1 <= m <= 12
  {
    k % 12 + 1
  }

  function LengthOf(k: int): (days: int)
    ensures 28 <= days <= 31
  {
    DaysIn(YearOf(k), MonthOf(k))
  }

  /** Number of the first day of the month with index `k`, counted from the start of year 0. */
  function FirstDay(k: int): int
    decreases if k < 0 then -k else k
  {
    if k == 0 then 0
    else if k > 0 then FirstDay(k - 1) + LengthOf(k - 1)
    else FirstDay(k + 1) - LengthOf(k)
  }

  predicate Valid(t: Stamp) {
    1 <= t.month <= 12 && 1 <= t.day <= DaysIn(t.year, t.month) && 0 <= t.nanos < Days(1)
  }

  function IndexOf(t: Stamp): int {
    MonthIndex(t.year, t.month)
  }

  /** Nanoseconds since the start of day 0. */
  function Instant(t: Stamp): int
    requires Valid(t)
  {
    Days(FirstDay(IndexOf(t)) + t.day - 1) + t.nanos
  }

  // ---------- the two functions ----------

  /** The reset date of one month; a month too short for it passes it on to the first of the next. */
  function ActualReset(year: int, month: int, resetDay: int): Stamp
    requires 1 <= month <= 12
  {
    var lastDay := FirstDay(MonthIndex(year, month) + 1) - FirstDay(MonthIndex(year, month));
    if resetDay <= lastDay then Stamp(year, month, resetDay, 0)
    else if month + 1 > 12 then Stamp(year + 1, 1, 1, 0)
    else Stamp(year, month + 1, 1, 0)
  }

  function LastReset(resetDay: int, now: Stamp): Stamp
    requires Valid(now)
  {
    if resetDay < 1 || resetDay > 31 then now
    else
      var thisMonth := ActualReset(now.year, now.month, resetDay);
      ActualResetIsValid(now.year, now.month, resetDay);
      if Instant(now) >= Instant(thisMonth) then thisMonth else PreviousReset(resetDay, now)
  }

  /** The reset date of the month before. */
  function PreviousReset(resetDay: int, now: Stamp): Stamp
    requires Valid(now)
  {
    if now.month - 1 < 1 then ActualReset(now.year - 1, 12, resetDay)
        else ActualReset(now.year, now.month - 1, resetDay)
  }

  // ---------- facts about the calendar ----------

  lemma MonthIndexInverse(year: int, month: int)
    requires 1 <= month <= 12
    ensures YearOf(MonthIndex(year, month)) == year && MonthOf(MonthIndex(year, month)) == month
  {
  }

  lemma MonthLength(k: int)
    ensures FirstDay(k + 1) - FirstDay(k) == LengthOf(k)
  {
  }

  lemma {:induction false} FirstDaysIncrease(j: int, k: int)
    requires j <= k
    ensures FirstDay(k) - FirstDay(j) >= 28 * (k - j)
    decreases k - j
  {
    if j < k {
      FirstDaysIncrease(j, k - 1);
      MonthLength(k - 1);
    }
  }

  lemma InstantInMonth(t: Stamp)
    requires Valid(t)
    ensures Days(FirstDay(IndexOf(t))) <= Instant(t) < Days(FirstDay(IndexOf(t) + 1))
  {
    MonthLength(IndexOf(t));
    MonthIndexInverse(t.year, t.month);
  }

  // ---------- the civil calendar in closed form ----------

  /** Years that end in February, and months counted from March: the leap day is the last of its year. */
  function CivilYear(year: int, month: int): int {
    if month <= 2 then year - 1 else year
  }

  function CivilMonth(month: int): int {
    if month <= 2 then month + 9 else month - 3
  }

  /** Days before the first of a month, counted from the first of March of year 0. */
  function CivilDays(year: int, month: int): int {
    var y := CivilYear(year, month);
    365 * y + y / 4 - y / 100 + y / 400 + (153 * CivilMonth(month) + 2) / 5
  }

  /** Leap years are the ones by whose February the closed form gains a day. */
  lemma LeapGains(year: int)
    ensures var y := year - 1;
      (year / 4 - year / 100 + year / 400) - (y / 4 - y / 100 + y / 400) == if Leap(year) then 1 else 0
  {
    QuotientStep(year, 4);
    QuotientStep(year, 100);
    QuotientStep(year, 400);
    LeapCases(year);
  }

  lemma QuotientStep(n: int, d: int)
    requires d == 4 || d == 100 || d == 400
    ensures n / d - (n - 1) / d == if n % d == 0 then 1 else 0
  {
  }

  lemma LeapCases(year: int)
    ensures year % 400 == 0 ==> year % 100 == 0
    ensures year % 100 == 0 ==> year % 4 == 0
  {
    if year % 400 == 0 {
      assert year == 100 * (4 * (year / 400));
      MultipleOf(4 * (year / 400), 100);
    }
    if year % 100 == 0 {
      assert year == 4 * (25 * (year / 100));
      MultipleOf(25 * (year / 100), 4);
    }
  }

  lemma MultipleOf(q: int, d: int)
    requires d == 4 || d == 100
    ensures (d * q) % d == 0
  {
  }

  lemma CivilMonthLength(year: int, month: int)
    requires 1 <= month <= 11
    ensures CivilDays(year, month + 1) - CivilDays(year, month) == DaysIn(year, month)
  {
    LeapGains(year);
  }

  lemma CivilDecember(year: int)
    ensures CivilDays(year + 1, 1) - CivilDays(year, 12) == 31
  {
  }

  function CivilFirst(k: int): int {
    CivilDays(YearOf(k), MonthOf(k))
  }

  lemma CivilStep(k: int)
    ensures CivilFirst(k + 1) - CivilFirst(k) == LengthOf(k)
  {
    if MonthOf(k) == 12 {
      assert YearOf(k + 1) == YearOf(k) + 1 && MonthOf(k + 1) == 1;
      CivilDecember(YearOf(k));
    } else {
      assert YearOf(k + 1) == YearOf(k) && MonthOf(k + 1) == MonthOf(k) + 1;
      CivilMonthLength(YearOf(k), MonthOf(k));
    }
  }

  lemma CivilStart()
    ensures CivilFirst(0) == -60 && FirstDay(0) == 0
  {
  }

  /** Two functions with the same steps keep their distance. */
  lemma {:induction false} SameSteps(f: int -> int, g: int -> int, k: int)
    requires forall i :: f(i + 1) - f(i) == g(i + 1) - g(i)
    ensures f(k) - g(k) == f(0) - g(0)
    decreases if k < 0 then -k else k
  {
    if k > 0 {
      SameSteps(f, g, k - 1);
      assert f(k - 1 + 1) - f(k - 1) == g(k - 1 + 1) - g(k - 1);
    } else if k < 0 {
      SameSteps(f, g, k + 1);
    }
  }

  /** The first of January of year 0 is 60 days before the first of March. */
  lemma FirstDayByMonths(k: int)
    ensures FirstDay(k) == CivilFirst(k) + 60
  {
    forall i ensures FirstDay(i + 1) - FirstDay(i) == CivilFirst(i + 1) - CivilFirst(i) {
      CivilStep(i);
      MonthLength(i);
    }
    CivilStart();
    SameSteps(FirstDay, CivilFirst, k);
  }

  /** The months counted one by one are the civil calendar's closed form, for every year. */
  lemma FirstDayIsCivil(year: int, month: int)
    requires 1 <= month <= 12
    ensures FirstDay(MonthIndex(year, month)) == CivilDays(year, month) + 60
  {
    FirstDayByMonths(MonthIndex(year, month));
    MonthIndexInverse(year, month);
  }

  lemma SameMonth(s: Stamp, t: Stamp)
    requires Valid(s) && Valid(t) && Instant(s) == Instant(t)
    ensures IndexOf(s) == IndexOf(t)
  {
    InstantInMonth(s);
    InstantInMonth(t);
    if IndexOf(s) < IndexOf(t) {
      FirstDaysIncrease(IndexOf(s) + 1, IndexOf(t));
    } else if IndexOf(t) < IndexOf(s) {
      FirstDaysIncrease(IndexOf(t) + 1, IndexOf(s));
    }
  }

  lemma DayAndTime(a: int, n: int, b: int, m: int)
    requires 0 <= n < Days(1) && 0 <= m < Days(1) && Days(a) + n == Days(b) + m
    ensures a == b && n == m
  {
  }

  /** Different local times are different instants. */
  lemma InstantIsInjective(s: Stamp, t: Stamp)
    requires Valid(s) && Valid(t) && Instant(s) == Instant(t)
    ensures s == t
  {
    SameMonth(s, t);
    SameYearAndMonth(s, t);
    DayAndTime(FirstDay(IndexOf(s)) + s.day - 1, s.nanos, FirstDay(IndexOf(t)) + t.day - 1, t.nanos);
  }

  lemma SameYearAndMonth(s: Stamp, t: Stamp)
    requires 1 <= s.month <= 12 && 1 <= t.month <= 12 && IndexOf(s) == IndexOf(t)
    ensures s.year == t.year && s.month == t.month
  {
  }

  // ---------- reset dates ----------

  lemma ActualResetIsValid(year: int, month: int, resetDay: int)
    requires 1 <= month <= 12 && 1 <= resetDay <= 31
    ensures Valid(ActualReset(year, month, resetDay))
  {
    MonthLength(MonthIndex(year, month));
    MonthIndexInverse(year, month);
  }

  /** The reset of the month with index `k`: the day if the month has it, and else the first of the next month. */
  function ResetOf(resetDay: int, k: int): int
    requires 1 <= resetDay <= 31
  {
    Days(if resetDay <= LengthOf(k) then FirstDay(k) + resetDay - 1 else FirstDay(k + 1))
  }

  lemma ActualResetIs(year: int, month: int, resetDay: int)
    requires 1 <= month <= 12 && 1 <= resetDay <= 31
    ensures Valid(ActualReset(year, month, resetDay))
    ensures Instant(ActualReset(year, month, resetDay)) == ResetOf(resetDay, MonthIndex(year, month))
  {
    var k := MonthIndex(year, month);
    ActualResetIsValid(year, month, resetDay);
    MonthLength(k);
    assert month == 12 ==> MonthIndex(year + 1, 1) == k + 1;
    assert month < 12 ==> MonthIndex(year, month + 1) == k + 1;
  }

  /** The reset date of a month is in it or on the first day of the next. */
  lemma ResetOfBounds(resetDay: int, k: int)
    requires 1 <= resetDay <= 31
    ensures Days(FirstDay(k)) <= ResetOf(resetDay, k) <= Days(FirstDay(k + 1))
  {
    MonthLength(k);
  }

  /** Successive reset dates are 28 to 31 days apart. */
  lemma GapsAreMonths(resetDay: int, k: int)
    requires 1 <= resetDay <= 31
    ensures Days(28) <= ResetOf(resetDay, k + 1) - ResetOf(resetDay, k) <= Days(31)
  {
    MonthLength(k);
    MonthLength(k + 1);
    DaysOfNeighbours(k);
  }

  lemma DaysOfNeighbours(k: int)
    ensures var a, b := LengthOf(k), LengthOf(k + 1);
      (a < 30 ==> b == 31) && (b < 30 ==> a == 31) && (a == 30 ==> b == 31)
  {
    if MonthOf(k) == 12 {
      assert MonthOf(k + 1) == 1;
    } else {
      assert MonthOf(k + 1) == MonthOf(k) + 1;
    }
  }

  lemma {:induction false} ResetsIncrease(resetDay: int, j: int, k: int)
    requires 1 <= resetDay <= 31 && j < k
    ensures ResetOf(resetDay, j) < ResetOf(resetDay, k)
    decreases k - j
  {
    GapsAreMonths(resetDay, k - 1);
    if j < k - 1 {
      ResetsIncrease(resetDay, j, k - 1);
    }
  }

  /** `r` is the latest of all months' reset dates that is not after `now`. */
  ghost predicate IsLastReset(resetDay: int, now: Stamp, r: Stamp)
    requires 1 <= resetDay <= 31 && Valid(now)
  {
    && Valid(r) && Instant(r) <= Instant(now)
    && (exists k :: ResetOf(resetDay, k) == Instant(r))
    && forall k :: ResetOf(resetDay, k) <= Instant(now) ==> ResetOf(resetDay, k) <= Instant(r)
  }

  /** The month whose reset date is the result. */
  function LastMonth(resetDay: int, now: Stamp): int
    requires 1 <= resetDay <= 31 && Valid(now)
  {
    if ResetOf(resetDay, IndexOf(now)) <= Instant(now) then IndexOf(now) else IndexOf(now) - 1
  }

  lemma PreviousResetIs(resetDay: int, now: Stamp)
    requires 1 <= resetDay <= 31 && Valid(now)
    ensures Valid(PreviousReset(resetDay, now))
    ensures Instant(PreviousReset(resetDay, now)) == ResetOf(resetDay, IndexOf(now) - 1)
  {
    var year, month := if now.month == 1 then now.year - 1 else now.year, if now.month == 1 then 12 else now.month - 1;
    assert MonthIndex(year, month) == IndexOf(now) - 1;
    assert PreviousReset(resetDay, now) == ActualReset(year, month, resetDay);
    ActualResetIs(year, month, resetDay);
  }

  lemma LastResetMonth(resetDay: int, now: Stamp)
    requires 1 <= resetDay <= 31 && Valid(now)
    ensures Valid(LastReset(resetDay, now))
    ensures Instant(LastReset(resetDay, now)) == ResetOf(resetDay, LastMonth(resetDay, now))
  {
    ActualResetIs(now.year, now.month, resetDay);
    PreviousResetIs(resetDay, now);
  }

  lemma LastMonthBounds(resetDay: int, now: Stamp)
    requires 1 <= resetDay <= 31 && Valid(now)
    ensures var k := LastMonth(resetDay, now); ResetOf(resetDay, k) <= Instant(now) < ResetOf(resetDay, k + 1)
  {
    var k := IndexOf(now);
    InstantInMonth(now);
    ResetOfBounds(resetDay, k + 1);
    ResetOfBounds(resetDay, k - 1);
  }

  lemma LastMonthIsMax(resetDay: int, now: Stamp, j: int)
    requires 1 <= resetDay <= 31 && Valid(now) && ResetOf(resetDay, j) <= Instant(now)
    ensures ResetOf(resetDay, j) <= ResetOf(resetDay, LastMonth(resetDay, now))
  {
    var k := LastMonth(resetDay, now);
    LastMonthBounds(resetDay, now);
    if k + 1 < j {
      ResetsIncrease(resetDay, k + 1, j);
    } else if j < k {
      ResetsIncrease(resetDay, j, k);
    }
  }

  lemma LastResetIsLast(resetDay: int, now: Stamp)
    requires 1 <= resetDay <= 31 && Valid(now)
    ensures IsLastReset(resetDay, now, LastReset(resetDay, now))
  {
    var last := LastReset(resetDay, now);
    LastResetMonth(resetDay, now);
    LastMonthBounds(resetDay, now);
    forall j | ResetOf(resetDay, j) <= Instant(now) ensures ResetOf(resetDay, j) <= Instant(last) {
      LastMonthIsMax(resetDay, now, j);
    }
  }

  /** The result is exactly the latest reset date that is not after the given time, over all months. */
  lemma LastResetExactly(resetDay: int, now: Stamp, r: Stamp)
    requires 1 <= resetDay <= 31 && Valid(now)
    ensures IsLastReset(resetDay, now, r) <==> r == LastReset(resetDay, now)
  {
    var last := LastReset(resetDay, now);
    LastResetIsLast(resetDay, now);
    if IsLastReset(resetDay, now, r) {
      assert Instant(r) == Instant(last);
      InstantIsInjective(r, last);
    }
  }

  /** A period is never over when it is reported: the last reset is less than 31 days back. */
  lemma LastResetIsRecent(resetDay: int, now: Stamp)
    requires 1 <= resetDay <= 31 && Valid(now)
    ensures Valid(LastReset(resetDay, now))
    ensures 0 <= Instant(now) - Instant(LastReset(resetDay, now)) < Days(31)
  {
    LastResetMonth(resetDay, now);
    LastMonthBounds(resetDay, now);
    GapsAreMonths(resetDay, LastMonth(resetDay, now));
  }

  lemma LastResetIsMonotone(resetDay: int, s: Stamp, t: Stamp)
    requires 1 <= resetDay <= 31 && Valid(s) && Valid(t) && Instant(s) <= Instant(t)
    ensures Valid(LastReset(resetDay, s)) && Valid(LastReset(resetDay, t))
    ensures Instant(LastReset(resetDay, s)) <= Instant(LastReset(resetDay, t))
  {
    LastResetExactly(resetDay, s, LastReset(resetDay, s));
    LastResetExactly(resetDay, t, LastReset(resetDay, t));
  }

  lemma LastResetIsIdempotent(resetDay: int, now: Stamp)
    requires Valid(now)
    ensures Valid(LastReset(resetDay, now))
    ensures LastReset(resetDay, LastReset(resetDay, now)) == LastReset(resetDay, now)
  {
    if 1 <= resetDay <= 31 {
      var last := LastReset(resetDay, now);
      LastResetExactly(resetDay, now, last);
      LastResetExactly(resetDay, last, last);
    }
  }

  /** A reset day that no month has leaves the time as it is. */
  lemma InvalidDayKeepsTime(resetDay: int, now: Stamp)
    requires Valid(now) && !(1 <= resetDay <= 31)
    ensures LastReset(resetDay, now) == now
  {
  }
}
