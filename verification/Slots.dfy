/** `getAvailableSlots`: what the booking page offers, and why the guard accepts it. */
module Slots {
  import opened Prelude
  import opened Clock
  import opened Calendar
  import opened Guard
  import opened DayGrid
  import opened Booking

  /** A slot search.  The first and last day are days of `requestZone`; `earliest` is
      now plus the business's minimum notice. */
  datatype Query = Query(
    business: Id, staff: Id, services: seq<Id>, location: Option<Id>,
    firstDay: int, lastDay: int, requestZone: int, earliest: int)

  ghost predicate ValidQuery(w: World, q: Query) {
    q.services != [] && (forall s :: s in q.services ==> s in w.services) && q.firstDay <= q.lastDay
  }

  // ---------- folding the inputs ----------

  function WidestBefore(w: World, services: seq<Id>): int
    requires services != []
  {
    var first := BufferBefore(w, services[0]);
    if |services| == 1 then first else Max(first, WidestBefore(w, services[1..]))
  }

  function WidestAfter(w: World, services: seq<Id>): int
    requires services != []
  {
    var first := BufferAfter(w, services[0]);
    if |services| == 1 then first else Max(first, WidestAfter(w, services[1..]))
  }

  function Combined(w: World, services: seq<Id>): Bundle
    requires services != []
  {
    Bundle(services[0], TotalMinutes(w, services), WidestBefore(w, services), WidestAfter(w, services),
           Seats(w, services[0]))
  }

  lemma CombinedIsWidest(w: World, services: seq<Id>)
    requires ValidWorld(w) && services != [] && forall s :: s in services ==> s in w.services
    ensures ValidBundle(Combined(w, services))
    ensures forall s :: s in services ==>
      BufferBefore(w, s) <= WidestBefore(w, services) && BufferAfter(w, s) <= WidestAfter(w, services)
    ensures TotalMinutes(w, services) >= 1
  {
    if |services| > 1 {
      CombinedIsWidest(w, services[1..]);
      assert forall s :: s in services ==> s == services[0] || s in services[1..];
    }
    TotalMinutesPositive(w, services);
  }

  function RangeStart(q: Query): int {
    FromZoned(q.firstDay, 0, q.requestZone)
  }

  /** 23:59:59 of the last day. */
  function RangeEnd(q: Query): int {
    FromZoned(q.lastDay, 0, q.requestZone) + 86_399_000
  }

  predicate InConflictRange(q: Query, r: Row) {
    && r.startsAt < AddMinutes(RangeEnd(q), LOCK_MARGIN_MIN)
    && r.endsAt > AddMinutes(RangeStart(q), -LOCK_MARGIN_MIN)
  }

  predicate InRange(q: Query, start: int, end: int) {
    start < RangeEnd(q) && end > RangeStart(q)
  }

  function OwnAppointments(rows: Rows, q: Query): Rows {
    map id | id in rows && rows[id].staff == q.staff && rows[id].status.Active() && InConflictRange(q, rows[id])
      :: rows[id]
  }

  function BusyResources(w: World, rows: Rows, q: Query): set<Interval> {
    set id | id in rows && rows[id].business == q.business && rows[id].staff != q.staff && rows[id].status.Active()
      && InConflictRange(q, rows[id])
      && ResourceOf(w, rows[id].service).Some? && ResourceOf(w, rows[id].service).value in ResourceIds(w, q.services)
      :: OccupiedRow(w, rows[id])
  }

  function StaffTimeOff(w: World, q: Query): set<Interval> {
    set t | t in w.timeOffs && t.staff == q.staff && InRange(q, t.startsAt, t.endsAt) :: Interval(t.startsAt, t.endsAt)
  }

  /** Business-wide closures, and those of the branch when there is one. */
  function Closures(w: World, q: Query): set<Interval> {
    set c | c in w.closures && c.business == q.business && InRange(q, c.startsAt, c.endsAt)
      && (c.location == None || c.location == q.location) :: Interval(c.startsAt, c.endsAt)
  }

  function ViewOf(w: World, rows: Rows, q: Query): View
    requires q.services != []
  {
    View(w, OwnAppointments(rows, q), StaffTimeOff(w, q) + BusyResources(w, rows, q) + Closures(w, q),
         Combined(w, q.services))
  }

  const WEEKDAYS := [
    DayWindow(1, "09:00", "17:00"), DayWindow(2, "09:00", "17:00"), DayWindow(3, "09:00", "17:00"),
    DayWindow(4, "09:00", "17:00"), DayWindow(5, "09:00", "17:00")]

  /** All the provider's rules, else the branch's hours, else the business's, else
      09:00-17:00 on Monday to Friday. */
  function EngineWindows(w: World, staff: Id, business: Id, location: Option<Id>): seq<DayWindow> {
    var own := Filter(w.rules, (r: StaffRule) => r.staff == staff);
    var hours := Filter(w.hours, (h: OpeningHours) =>
      h.business == business && (h.location == location || h.location == None));
    var branch := BranchHours(hours, location);
    if own != [] then Map(own, FromRule)
    else if branch != [] then Map(branch, FromHours)
    else WEEKDAYS
  }

  function WindowsOn(windows: seq<DayWindow>, dow: int): seq<DayWindow> {
    Filter(windows, (d: DayWindow) => d.dayOfWeek == dow)
  }

  // ---------- the two loops ----------

  predicate Requested(q: Query, s: Slot) {
    RangeStart(q) <= s.startsAt && s.endsAt <= RangeEnd(q)
  }

  /** The slots of one window on one day that lie in the requested range. */
  function RuleSlots(v: View, q: Query, day: int, zone: int, d: DayWindow): seq<Slot>
    requires ValidBundle(v.bundle) && IsClock(d.startTime) && IsClock(d.endTime)
  {
    Filter(WindowSlots(v, FromZoned(day, Minutes(d.startTime), zone), FromZoned(day, Minutes(d.endTime), zone)),
           (s: Slot) => Requested(q, s))
  }

  ghost predicate AreClocks(windows: seq<DayWindow>) {
    forall d :: d in windows ==> IsClock(d.startTime) && IsClock(d.endTime)
  }

  function RuleLists(v: View, q: Query, day: int, zone: int, windows: seq<DayWindow>): (lists: seq<seq<Slot>>)
    requires ValidBundle(v.bundle) && AreClocks(windows)
    ensures |lists| == |windows|
  {
    seq(|windows|, i requires 0 <= i < |windows| => RuleSlots(v, q, day, zone, windows[i]))
  }

  function SlotsOfDay(v: View, q: Query, day: int, zone: int, windows: seq<DayWindow>): seq<Slot>
    requires ValidBundle(v.bundle) && AreClocks(windows)
  {
    Flatten(RuleLists(v, q, day, zone, WindowsOn(windows, DayOfWeek(day))))
  }

  function DayLists(v: View, q: Query, day: int, days: nat, zone: int, windows: seq<DayWindow>): (lists: seq<seq<Slot>>)
    requires ValidBundle(v.bundle) && AreClocks(windows)
    ensures |lists| == days
  {
    seq(days, i requires 0 <= i < days => SlotsOfDay(v, q, day + i, zone, windows))
  }

  function SlotsOfDays(v: View, q: Query, day: int, days: nat, zone: int, windows: seq<DayWindow>): seq<Slot>
    requires ValidBundle(v.bundle) && AreClocks(windows)
  {
    Flatten(DayLists(v, q, day, days, zone, windows))
  }

  /** The local days the cursor visits: one before the requested range to one after. */
  function FirstVisited(q: Query, zone: int): int {
    LocalDay(RangeStart(q) - 86_400_000, zone)
  }

  function VisitedDays(q: Query): nat
    requires q.firstDay <= q.lastDay
  {
    q.lastDay - q.firstDay + 3
  }

  function SearchZone(w: World, q: Query): int {
    ZoneOf(w, q.business, q.location)
  }

  /** Everything in range, before the minimum-notice filter. */
  function AllSlots(w: World, rows: Rows, q: Query): seq<Slot>
    requires ValidWorld(w) && ValidQuery(w, q)
  {
    EngineWindowsAreClocks(w, q.staff, q.business, q.location);
    CombinedIsWidest(w, q.services);
    SlotsOfDays(ViewOf(w, rows, q), q, FirstVisited(q, SearchZone(w, q)), VisitedDays(q), SearchZone(w, q),
                EngineWindows(w, q.staff, q.business, q.location))
  }

  function Offered(w: World, rows: Rows, q: Query): seq<Slot>
    requires ValidWorld(w) && ValidQuery(w, q)
  {
    Filter(AllSlots(w, rows, q), (s: Slot) => s.startsAt >= q.earliest)
  }

  lemma RulesAreClocks(w: World, own: seq<StaffRule>)
    requires ValidWorld(w) && forall r :: r in own ==> r in w.rules
    ensures AreClocks(Map(own, FromRule))
  {
    forall d | d in Map(own, FromRule)
      ensures IsClock(d.startTime) && IsClock(d.endTime)
    {
      var r := MapSource(own, FromRule, d);
    }
  }

  lemma HoursAreClocks(w: World, hours: seq<OpeningHours>)
    requires ValidWorld(w) && forall h :: h in hours ==> h in w.hours
    ensures AreClocks(Map(hours, FromHours))
  {
    forall d | d in Map(hours, FromHours)
      ensures IsClock(d.startTime) && IsClock(d.endTime)
    {
      var h := MapSource(hours, FromHours, d);
    }
  }

  lemma WeekdaysAreClocks()
    ensures AreClocks(WEEKDAYS)
  {
    assert IsClock("09:00") && IsClock("17:00");
  }

  lemma EngineWindowsAreClocks(w: World, staff: Id, business: Id, location: Option<Id>)
    requires ValidWorld(w)
    ensures AreClocks(EngineWindows(w, staff, business, location))
  {
    var hours := Filter(w.hours, (h: OpeningHours) =>
      h.business == business && (h.location == location || h.location == None));
    RulesAreClocks(w, Filter(w.rules, (r: StaffRule) => r.staff == staff));
    HoursAreClocks(w, BranchHours(hours, location));
    WeekdaysAreClocks();
  }

  method SlotsForDay(v: View, q: Query, day: int, zone: int, windows: seq<DayWindow>) returns (daySlots: seq<Slot>)
    requires ValidBundle(v.bundle) && AreClocks(windows)
    ensures daySlots == SlotsOfDay(v, q, day, zone, windows)
  {
    var dayWindows := WindowsOn(windows, DayOfWeek(day));
    daySlots := [];
    ghost var lists := RuleLists(v, q, day, zone, dayWindows);
    for i := 0 to |dayWindows|
      invariant daySlots == Flatten(lists[..i])
    {
      var d := dayWindows[i];
      var generated := GenerateDaySlots(v, FromZoned(day, Minutes(d.startTime), zone),
                                        FromZoned(day, Minutes(d.endTime), zone));
      daySlots := daySlots + Filter(generated, (s: Slot) => Requested(q, s));
      FlattenNext(lists, i);
    }
    assert lists[..|dayWindows|] == lists;
  }

  /** The cursor loop: `addDays(cursor, 1)` while the cursor is before `searchEnd`. */
  method CollectSlots(v: View, q: Query, zone: int, windows: seq<DayWindow>, start: int, searchEnd: int, ghost days: nat)
    returns (slots: seq<Slot>)
    requires ValidBundle(v.bundle) && AreClocks(windows)
    requires days * 86_400_000 - 86_400_000 < searchEnd - start <= days * 86_400_000
    ensures slots == SlotsOfDays(v, q, LocalDay(start, zone), days, zone, windows)
  {
    slots := [];
    ghost var lists := DayLists(v, q, LocalDay(start, zone), days, zone, windows);
    var cursor := start;
    ghost var visited: nat := 0;
    while cursor < searchEnd
      invariant visited <= days && cursor == start + visited * 86_400_000
      invariant slots == Flatten(lists[..visited])
      decreases searchEnd - cursor
    {
      CursorDay(start, visited, zone);
      assert visited < days;
      var daySlots := SlotsForDay(v, q, LocalDay(cursor, zone), zone, windows);
      assert daySlots == lists[visited];
      FlattenNext(lists, visited);
      slots := slots + daySlots;
      cursor := cursor + 86_400_000;
      visited := visited + 1;
    }
    assert visited == days && lists[..days] == lists;
  }

  lemma CursorDay(t: int, days: nat, zone: int)
    ensures LocalDay(t + days * 86_400_000, zone) == LocalDay(t, zone) + days
  {
  }

  method GetAvailableSlots(w: World, rows: Rows, q: Query) returns (bookable: seq<Slot>)
    requires ValidWorld(w) && ValidQuery(w, q)
    ensures bookable == Offered(w, rows, q)
  {
    EngineWindowsAreClocks(w, q.staff, q.business, q.location);
    CombinedIsWidest(w, q.services);
    var cursor := RangeStart(q) - 86_400_000;
    var searchEnd := RangeEnd(q) + 86_400_000;
    var slots := CollectSlots(ViewOf(w, rows, q), q, SearchZone(w, q),
                              EngineWindows(w, q.staff, q.business, q.location), cursor, searchEnd, VisitedDays(q));
    bookable := Filter(slots, (s: Slot) => s.startsAt >= q.earliest);
  }
}
