/** The occurrence times of a recurring series: weekly multiples, or months from the
    first date with end-of-month clamping.  Dates are UTC, from 1970 on. */
module Recurrence {
  import opened Clock

  datatype Frequency = WEEKLY | BIWEEKLY | THREE_WEEKS | EIGHT_WEEKS | MONTHLY

  const WEEK_MS := 604_800_000

  predicate IsLeap(year: int) {
    (year % 4 == 0 && year % 100 != 0) || year % 400 == 0
  }

  /** Months are counted from January 1970. */
  function MonthLength(month: nat): (days: nat)
    ensures 28 <= days <= 31
  {
    var m := month % 12;
    if m == 1 then (if IsLeap(1970 + month / 12) then 29 else 28)
    else if m == 3 || m == 5 || m == 8 || m == 10 then 30
    else 31
  }

  /** The day on which a month starts. */
  function MonthStart(month: nat): nat {
    if month == 0 then 0 else MonthStart(month - 1) + MonthLength(month - 1)
  }

  function MonthFrom(day: nat, month: nat): (m: nat)
    requires MonthStart(month) <= day
    ensures MonthStart(m) <= day < MonthStart(m + 1)
    decreases day - MonthStart(month)
  {
    if day < MonthStart(month + 1) then month else MonthFrom(day, month + 1)
  }

  function MonthOf(day: nat): (m: nat)
    ensures MonthStart(m) <= day < MonthStart(m + 1)
  {
    MonthFrom(day, 0)
  }

  function DayOf(t: nat): nat {
    t / 86_400_000
  }

  function Smaller(a: nat, b: nat): nat {
    if a <= b then a else b
  }

  /** date-fns `addMonths`: same day of the month, or the month's last day if shorter. */
  function AddMonths(t: nat, n: nat): nat {
    var month := MonthOf(DayOf(t));
    var dayOfMonth := DayOf(t) - MonthStart(month);
    (MonthStart(month + n) + Smaller(dayOfMonth, MonthLength(month + n) - 1)) * 86_400_000 + t % 86_400_000
  }

  function WeekInterval(f: Frequency): nat {
    match f
    case BIWEEKLY => 2
    case THREE_WEEKS => 3
    case EIGHT_WEEKS => 8
    case _ => 1
  }

  function Occurrence(f: Frequency, base: nat, i: nat): nat {
    if f == MONTHLY then AddMonths(base, i) else base + i * WeekInterval(f) * 604_800_000
  }

  lemma {:induction false} MonthStartGrows(a: nat, b: nat)
    requires a <= b
    ensures MonthStart(a) <= MonthStart(b)
    ensures a < b ==> MonthStart(a) + MonthLength(a) <= MonthStart(b)
    decreases b - a
  {
    if a < b {
      MonthStartGrows(a + 1, b);
    }
  }

  lemma MonthsAreDisjoint(day: nat, a: nat, b: nat)
    requires MonthStart(a) <= day < MonthStart(a + 1) && MonthStart(b) <= day < MonthStart(b + 1)
    ensures a == b
  {
    if a < b {
      MonthStartGrows(a + 1, b);
    } else if b < a {
      MonthStartGrows(b + 1, a);
    }
  }

  function Landing(t: nat, n: nat): nat {
    var month := MonthOf(DayOf(t));
    MonthStart(month + n) + Smaller(DayOf(t) - MonthStart(month), MonthLength(month + n) - 1)
  }

  lemma DayAndTime(day: nat, time: nat)
    requires time < 86_400_000
    ensures (day * 86_400_000 + time) / 86_400_000 == day && (day * 86_400_000 + time) % 86_400_000 == time
  {
  }

  lemma LandsOnDay(t: nat, n: nat)
    ensures DayOf(AddMonths(t, n)) == Landing(t, n)
    ensures AddMonths(t, n) % 86_400_000 == t % 86_400_000
  {
    DayAndTime(Landing(t, n), t % 86_400_000);
  }

  /** n months on: that very month, at the same time of day, and on the same day of the
      month unless the month is too short, when it is its last day. */
  lemma AddMonthsLands(t: nat, n: nat)
    ensures var month, later := MonthOf(DayOf(t)), AddMonths(t, n);
      && later % 86_400_000 == t % 86_400_000
      && MonthOf(DayOf(later)) == month + n
      && DayOf(later) - MonthStart(month + n) ==
         Smaller(DayOf(t) - MonthStart(month), MonthLength(month + n) - 1)
    ensures AddMonths(t, 0) == t
  {
    LandsOnDay(t, n);
    MonthsAreDisjoint(Landing(t, n), MonthOf(Landing(t, n)), MonthOf(DayOf(t)) + n);
    SameMonth(t);
  }

  lemma SameMonth(t: nat)
    ensures AddMonths(t, 0) == t
  {
    assert Landing(t, 0) == DayOf(t);
  }

  lemma MonthsIncrease(base: nat, i: nat, j: nat)
    requires i < j
    ensures AddMonths(base, i) < AddMonths(base, j)
  {
    var month := MonthOf(DayOf(base));
    MonthStartGrows(month + i, month + j);
    var a := MonthStart(month + i) + Smaller(DayOf(base) - MonthStart(month), MonthLength(month + i) - 1);
    var b := MonthStart(month + j) + Smaller(DayOf(base) - MonthStart(month), MonthLength(month + j) - 1);
    assert a < b;
  }

  lemma Scaled(i: nat, j: nat, interval: nat)
    requires i < j && interval > 0
    ensures i * interval < j * interval
  {
  }

  /** Occurrences are strictly increasing, from the requested start on. */
  lemma OccurrencesIncrease(f: Frequency, base: nat, i: nat, j: nat)
    requires i < j
    ensures Occurrence(f, base, i) < Occurrence(f, base, j)
    ensures Occurrence(f, base, 0) == base
  {
    if f == MONTHLY {
      AddMonthsLands(base, 0);
      MonthsIncrease(base, i, j);
    } else {
      Scaled(i, j, WeekInterval(f));
    }
  }

  /** The n-th weekly occurrence falls on the same weekday and at the same time of day. */
  lemma WeeklyKeepsWeekday(f: Frequency, base: nat, i: nat)
    requires f != MONTHLY
    ensures DayOfWeek(LocalDay(Occurrence(f, base, i), 0)) == DayOfWeek(LocalDay(base, 0))
    ensures TimeOfDay(Occurrence(f, base, i), 0) == TimeOfDay(base, 0)
  {
    WeeksLater(base, i * WeekInterval(f));
  }

  lemma WeeksLater(t: int, weeks: nat)
    ensures DayOfWeek(LocalDay(t + weeks * 604_800_000, 0)) == DayOfWeek(LocalDay(t, 0))
    ensures TimeOfDay(t + weeks * 604_800_000, 0) == TimeOfDay(t, 0)
  {
    var days := 7 * weeks;
    assert LocalDay(t + days * 86_400_000, 0) == LocalDay(t, 0) + days;
  }

  // ---------- the i-th time, in calendar terms ----------

  /** The i-th weekly time is 7, 14, 21 or 56 days times i after the first; the i-th
      monthly one lies i months on. */
  lemma OccurrenceLands(f: Frequency, base: nat, i: nat)
    ensures f == WEEKLY ==> Occurrence(f, base, i) == base + 7 * i * 86_400_000
    ensures f == BIWEEKLY ==> Occurrence(f, base, i) == base + 14 * i * 86_400_000
    ensures f == THREE_WEEKS ==> Occurrence(f, base, i) == base + 21 * i * 86_400_000
    ensures f == EIGHT_WEEKS ==> Occurrence(f, base, i) == base + 56 * i * 86_400_000
    ensures f == MONTHLY ==> MonthOf(DayOf(Occurrence(f, base, i))) == MonthOf(DayOf(base)) + i
  {
    if f == MONTHLY {
      AddMonthsLands(base, i);
    }
  }

  /** Days of a year before each month, leap day not counted. */
  const DAYS_BEFORE := [0, 31, 59, 90, 120, 151, 181, 212, 243, 273, 304, 334, 365]

  /** Days from 1 January 1970 to the first of month m of a Gregorian year: 365 a year, one
      for each leap year passed, and the leap day of the year itself. */
  function DaysBefore(year: int, m: int): int
    requires 0 <= m <= 12
  {
    365 * (year - 1970) + (year - 1969) / 4 - (year - 1901) / 100 + (year - 1601) / 400
    + DAYS_BEFORE[m] + if m >= 2 && IsLeap(year) then 1 else 0
  }

  lemma MonthLasts(year: nat, m: nat)
    requires year >= 1970 && m < 12
    ensures MonthLength(12 * (year - 1970) + m) == DaysBefore(year, m + 1) - DaysBefore(year, m)
  {
    var month := 12 * (year - 1970) + m;
    assert month % 12 == m && month / 12 == year - 1970;
  }

  /** A year adds a day exactly if it is a leap year. */
  lemma NewYear(year: int)
    ensures DaysBefore(year + 1, 0) == DaysBefore(year, 12)
  {
    assert (year - 1968) / 4 - (year - 1969) / 4 == if year % 4 == 0 then 1 else 0;
    assert (year - 1900) / 100 - (year - 1901) / 100 == if year % 100 == 0 then 1 else 0;
    assert (year - 1600) / 400 - (year - 1601) / 400 == if year % 400 == 0 then 1 else 0;
  }

  /** Months start when the Gregorian calendar says. */
  lemma {:induction false} MonthsAreGregorian(year: nat, m: nat)
    requires year >= 1970 && m < 12
    ensures MonthStart(12 * (year - 1970) + m) == DaysBefore(year, m)
    decreases year, m
  {
    if m > 0 {
      MonthsAreGregorian(year, m - 1);
      MonthLasts(year, m - 1);
    } else if year > 1970 {
      MonthsAreGregorian(year - 1, 11);
      MonthLasts(year - 1, 11);
      NewYear(year - 1);
      assert 12 * (year - 1970) == 12 * (year - 1 - 1970) + 11 + 1;
    }
  }

  /** So every day lies in the month of its civil date. */
  lemma CivilDate(day: nat)
    ensures var year, m := 1970 + MonthOf(day) / 12, MonthOf(day) % 12;
      DaysBefore(year, m) <= day < DaysBefore(year, m + 1) && MonthStart(MonthOf(day)) == DaysBefore(year, m)
  {
    var year, m := 1970 + MonthOf(day) / 12, MonthOf(day) % 12;
    assert 12 * (year - 1970) + m == MonthOf(day);
    MonthsAreGregorian(year, m);
    MonthLasts(year, m);
  }
}
