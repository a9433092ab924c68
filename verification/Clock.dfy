/** Instants, fixed-offset local time, and the zero-padded "HH:mm" strings that
    the booking guard compares.  An instant is a number of milliseconds since the
    epoch; a time zone is a constant number of milliseconds to add. */
module Clock {

  const MINUTE_MS := 60_000
  const DAY_MS := 86_400_000
  const MINUTES_IN_DAY := 1440

  /** date-fns `addMinutes`. */
  function AddMinutes(t: int, minutes: int): int {
    t + minutes * 60_000
  }

  /** date-fns `differenceInMinutes`, which truncates toward zero. */
  function DifferenceInMinutes(later: int, earlier: int): int {
    if later >= earlier then (later - earlier) / 60_000 else -((earlier - later) / 60_000)
  }

  /** The local calendar day of an instant, counted from 1 January 1970. */
  function LocalDay(t: int, zone: int): int {
    (t + zone) / 86_400_000
  }

  /** Milliseconds since local midnight. */
  function TimeOfDay(t: int, zone: int): nat {
    (t + zone) % 86_400_000
  }

  /** Whole minutes since local midnight: what the pattern 'HH:mm' shows. */
  function MinuteOfDay(t: int, zone: int): nat {
    TimeOfDay(t, zone) / 60_000
  }

  /** 0 = Sunday; 1 January 1970 was a Thursday. */
  function DayOfWeek(day: int): nat {
    (day + 4) % 7
  }

  /** `fromZonedTime` for a local day and a minute of that day. */
  function FromZoned(day: int, minute: int, zone: int): int {
    day * 86_400_000 + minute * 60_000 - zone
  }

  lemma LocalSplit(t: int, zone: int)
    ensures t + zone == LocalDay(t, zone) * 86_400_000 + TimeOfDay(t, zone)
    ensures 0 <= TimeOfDay(t, zone) < 86_400_000
    ensures 0 <= MinuteOfDay(t, zone) < MINUTES_IN_DAY
  {
  }

  /** An instant lies on a local day exactly when it lies between that day's midnights. */
  lemma OnDay(t: int, zone: int, day: int)
    ensures LocalDay(t, zone) == day <==> FromZoned(day, 0, zone) <= t < FromZoned(day + 1, 0, zone)
  {
  }

  // ---------- "HH:mm" ----------

  predicate IsDigit(c: char) {
    '0' <= c <= '9'
  }

  function DigitOf(n: nat): (c: char)
    requires n < 10
    ensures IsDigit(c) && ValueOf(c) == n
  {
    n as char + '0'
  }

  function ValueOf(c: char): nat
    requires IsDigit(c)
  {
    (c - '0') as nat
  }

  function TwoDigits(n: nat): string
    requires n < 100
  {
    [DigitOf(n / 10), DigitOf(n % 10)]
  }

  /** The shape the hours endpoints accept, restricted to real clock times. */
  predicate IsClock(s: string) {
    && |s| == 5
    && IsDigit(s[0]) && IsDigit(s[1]) && s[2] == ':' && IsDigit(s[3]) && IsDigit(s[4])
    && ValueOf(s[0]) * 10 + ValueOf(s[1]) < 24
    && ValueOf(s[3]) < 6
  }

  function Minutes(s: string): (m: nat)
    requires IsClock(s)
    ensures m < MINUTES_IN_DAY
  {
    (ValueOf(s[0]) * 10 + ValueOf(s[1])) * 60 + ValueOf(s[3]) * 10 + ValueOf(s[4])
  }

  /** `format(…, 'HH:mm')` of a minute of the day. */
  function HHmm(minute: nat): (s: string)
    requires minute < MINUTES_IN_DAY
    ensures IsClock(s) && Minutes(s) == minute
  {
    TwoDigits(minute / 60) + [':'] + TwoDigits(minute % 60)
  }

  /** JavaScript `a <= b` on strings: lexicographic by code unit. */
  predicate StringAtMost(a: string, b: string) {
    if a == "" then true
    else if b == "" then false
    else if a[0] != b[0] then a[0] < b[0]
    else StringAtMost(a[1..], b[1..])
  }

  /** Comparing zero-padded clock strings orders times as minutes do. */
  lemma ClockOrder(a: string, b: string)
    requires IsClock(a) && IsClock(b)
    ensures StringAtMost(a, b) <==> Minutes(a) <= Minutes(b)
  {
    assert StringAtMost(a[5..], b[5..]);
    assert forall k {:trigger a[k..]} | 0 <= k < 5 :: a[k..][1..] == a[k + 1..] && b[k..][1..] == b[k + 1..];
    assert a[0..] == a && b[0..] == b;
    assert StringAtMost(a[4..], b[4..]) <==> a[4] <= b[4];
    assert StringAtMost(a[3..], b[3..]) <==> a[3] < b[3] || (a[3] == b[3] && StringAtMost(a[4..], b[4..]));
    assert StringAtMost(a[2..], b[2..]) <==> StringAtMost(a[3..], b[3..]);
    assert StringAtMost(a[1..], b[1..]) <==> a[1] < b[1] || (a[1] == b[1] && StringAtMost(a[2..], b[2..]));
    assert StringAtMost(a, b) <==> a[0] < b[0] || (a[0] == b[0] && StringAtMost(a[1..], b[1..]));
  }
}
