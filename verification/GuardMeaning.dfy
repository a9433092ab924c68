/** What the guard answers, from the stored fields alone: a reference decision that uses
    none of the guard's own predicates, and the guard's equality with it. */
module GuardMeaning {
  import opened Prelude
  import opened Clock
  import opened Calendar
  import opened Guard

  // ---------- instants ----------

  /** Start of the buffer before, in milliseconds. */
  function BlockedFrom(w: World, service: Id, startsAt: int): int {
    if service in w.services then startsAt - 60_000 * w.services[service].bufferBeforeMin else startsAt
  }

  /** End of the buffer after. */
  function BlockedTo(w: World, service: Id, endsAt: int): int {
    if service in w.services then endsAt + 60_000 * w.services[service].bufferAfterMin else endsAt
  }

  /** The branch's own offset, else the business's, else none. */
  function Offset(w: World, business: Id, location: Option<Id>): int {
    if location.Some? && location.value in w.branchZone && w.branchZone[location.value].Some? then w.branchZone[location.value].value
    else if business in w.businessZone then w.businessZone[business]
    else 0
  }

  // ---------- opening windows ----------

  ghost predicate HasRule(w: World, staff: Id, dow: int) {
    exists r :: r in w.rules && r.staff == staff && r.dayOfWeek == dow
  }

  ghost predicate HasHours(w: World, business: Id, location: Option<Id>, dow: int) {
    exists h :: h in w.hours && h.business == business && h.location == location && h.dayOfWeek == dow
  }

  /** A window of the weekday: the provider's own, else the branch's, else the business's,
      else nine to five. */
  ghost predicate OpensOn(w: World, staff: Id, business: Id, location: Option<Id>, dow: int, from: string, to: string) {
    if HasRule(w, staff, dow) then
      StaffRule(staff, dow, from, to) in w.rules
    else if location.Some? && HasHours(w, business, location, dow) then
      OpeningHours(business, location, dow, from, to) in w.hours
    else if HasHours(w, business, None, dow) then
      OpeningHours(business, None, dow, from, to) in w.hours
    else
      from == "09:00" && to == "17:00"
  }

  lemma BranchHoursMembers(hours: seq<OpeningHours>, location: Option<Id>, h: OpeningHours)
    ensures h in BranchHours(hours, location) <==>
      h in hours && h.location == if location.Some? && (exists g :: g in hours && g.location == location) then location else None
  {
  }

  lemma GuardWindowsAreThese(w: World, staff: Id, business: Id, location: Option<Id>, dow: int, d: DayWindow)
    ensures d in GuardWindows(w, staff, business, location, dow) <==>
      d.dayOfWeek == dow && OpensOn(w, staff, business, location, dow, d.startTime, d.endTime)
  {
    var own := Filter(w.rules, (r: StaffRule) => r.staff == staff && r.dayOfWeek == dow);
    if HasRule(w, staff, dow) {
      OwnWindows(w, staff, dow, own, d);
    } else {
      FilterNone(w.rules, (r: StaffRule) => r.staff == staff && r.dayOfWeek == dow);
      HoursWindows(w, business, location, dow, d);
    }
  }

  lemma OwnWindows(w: World, staff: Id, dow: int, own: seq<StaffRule>, d: DayWindow)
    requires forall r :: r in own <==> r in w.rules && r.staff == staff && r.dayOfWeek == dow
    ensures d in Map(own, FromRule) <==> d.dayOfWeek == dow && StaffRule(staff, dow, d.startTime, d.endTime) in w.rules
    ensures HasRule(w, staff, dow) ==> own != []
  {
    if d in Map(own, FromRule) {
      var r := MapSource(own, FromRule, d);
      assert r == StaffRule(staff, dow, d.startTime, d.endTime);
    }
    var r := StaffRule(staff, dow, d.startTime, d.endTime);
    assert r in own ==> FromRule(r) in Map(own, FromRule);
  }

  /** The hours part of the guard's choice. */
  function HoursOr(w: World, business: Id, location: Option<Id>, dow: int): seq<DayWindow> {
    var hours := Filter(w.hours, (h: OpeningHours) =>
      h.business == business && h.dayOfWeek == dow && (h.location == location || h.location == None));
    var branch := BranchHours(hours, location);
    if branch != [] then Map(branch, FromHours) else [DayWindow(dow, "09:00", "17:00")]
  }

  lemma HoursWindows(w: World, business: Id, location: Option<Id>, dow: int, d: DayWindow)
    ensures d in HoursOr(w, business, location, dow) <==>
      d.dayOfWeek == dow &&
      if location.Some? && HasHours(w, business, location, dow) then OpeningHours(business, location, dow, d.startTime, d.endTime) in w.hours
      else if HasHours(w, business, None, dow) then OpeningHours(business, None, dow, d.startTime, d.endTime) in w.hours
      else d.startTime == "09:00" && d.endTime == "17:00"
  {
    var hours := Filter(w.hours, (h: OpeningHours) =>
      h.business == business && h.dayOfWeek == dow && (h.location == location || h.location == None));
    var chosen := if location.Some? && HasHours(w, business, location, dow) then location else None;
    var branch := BranchHours(hours, location);
    forall h
      ensures h in branch <==> h in w.hours && h.business == business && h.dayOfWeek == dow && h.location == chosen
    {
      BranchHoursMembers(hours, location, h);
    }
    if branch != [] {
      assert branch[0] in branch;
    }
    if d in Map(branch, FromHours) {
      var h := MapSource(branch, FromHours, d);
      assert h == OpeningHours(business, chosen, dow, d.startTime, d.endTime);
    }
    var h := OpeningHours(business, chosen, dow, d.startTime, d.endTime);
    assert h in branch ==> FromHours(h) in Map(branch, FromHours);
  }

  // ---------- time off, closures, appointments ----------

  ghost predicate MeetsTimeOff(w: World, staff: Id, from: int, to: int) {
    exists t :: t in w.timeOffs && t.staff == staff && t.startsAt < to && from < t.endsAt
  }

  /** A closure of the business applies to all its branches, one of a branch to that
      branch; without a branch every closure applies. */
  ghost predicate MeetsClosure(w: World, business: Id, location: Option<Id>, from: int, to: int) {
    exists c :: c in w.closures && c.business == business && c.startsAt < to && from < c.endsAt
      && (c.location == None || location == None || c.location == location)
  }

  /** Another pending or confirmed appointment of the business. */
  predicate Competes(a: Args, id: Id, r: Row) {
    r.business == a.business && (r.status == PENDING || r.status == CONFIRMED) && a.exclude != Some(id)
  }

  predicate SharesTime(w: World, r: Row, from: int, to: int) {
    BlockedFrom(w, r.service, r.startsAt) < to && from < BlockedTo(w, r.service, r.endsAt)
  }

  predicate IsSeatOf(a: Args, r: Row) {
    r.service == a.service && r.startsAt == a.startsAt
  }

  ghost predicate ProviderIsBusy(w: World, rows: Rows, a: Args, from: int, to: int) {
    exists id :: id in rows && Competes(a, id, rows[id]) && rows[id].staff == a.staff
      && SharesTime(w, rows[id], from, to) && !IsSeatOf(a, rows[id])
  }

  function SeatsTaken(rows: Rows, a: Args): set<Id> {
    set id | id in rows && Competes(a, id, rows[id]) && rows[id].staff == a.staff && IsSeatOf(a, rows[id])
  }

  /** At least one seat. */
  function SeatsOf(w: World, service: Id): int {
    if service in w.services && w.services[service].capacity >= 1 then w.services[service].capacity else 1
  }

  ghost predicate ResourceIsBusy(w: World, rows: Rows, a: Args, from: int, to: int) {
    exists id :: id in rows && Competes(a, id, rows[id]) && SharesTime(w, rows[id], from, to) && !IsSeatOf(a, rows[id])
      && rows[id].service in w.services && w.services[rows[id].service].resource.Some?
      && w.services[rows[id].service].resource.value in a.resources
  }

  // ---------- the reference decision ----------

  predicate SameLocalDay(t: int, u: int, offset: int) {
    (t + offset) / 86_400_000 == (u + offset) / 86_400_000
  }

  function ClockMinute(t: int, offset: int): int {
    (t + offset) % 86_400_000 / 60_000
  }

  /** The weekday on which the booking starts; 1 January 1970 was a Thursday. */
  function WeekdayOf(a: Args, offset: int): int {
    ((a.startsAt + offset) / 86_400_000 + 4) % 7
  }

  predicate ClocksFit(opens: string, closes: string, from: int, to: int, offset: int) {
    && IsClock(opens) && IsClock(closes)
    && Minutes(opens) <= ClockMinute(from, offset) && ClockMinute(to, offset) <= Minutes(closes)
  }

  /** The clock times of the blocked interval lie in a window of the weekday on which the
      booking starts. */
  ghost predicate IsOpen(w: World, a: Args, from: int, to: int) {
    var offset := Offset(w, a.business, a.location);
    exists opens, closes ::
      OpensOn(w, a.staff, a.business, a.location, WeekdayOf(a, offset), opens, closes) && ClocksFit(opens, closes, from, to, offset)
  }

  ghost function ReferenceCalendar(w: World, a: Args, from: int, to: int): Verdict {
    if !SameLocalDay(a.startsAt, a.endsAt, Offset(w, a.business, a.location)) then NotOneDay
    else if !IsOpen(w, a, from, to) then OutsideHours
    else if MeetsTimeOff(w, a.staff, from, to) then DuringTimeOff
    else if MeetsClosure(w, a.business, a.location, from, to) then DuringClosure
    else Accepted
  }

  ghost function ReferenceRows(w: World, rows: Rows, a: Args, from: int, to: int): Verdict {
    if ProviderIsBusy(w, rows, a, from, to) then SlotTaken
    else if |SeatsTaken(rows, a)| >= SeatsOf(w, a.service) then ClassFull
    else if ResourceIsBusy(w, rows, a, from, to) then ResourceTaken
    else Accepted
  }

  /** The calendar first, then the appointments. */
  ghost function ReferenceVerdict(w: World, rows: Rows, a: Args): Verdict {
    var from, to := BlockedFrom(w, a.service, a.startsAt), BlockedTo(w, a.service, a.endsAt);
    var calendar := ReferenceCalendar(w, a, from, to);
    if calendar != Accepted then calendar else ReferenceRows(w, rows, a, from, to)
  }

  lemma OccupiedIs(w: World, a: Args)
    ensures OccupiedBy(w, a) == Interval(BlockedFrom(w, a.service, a.startsAt), BlockedTo(w, a.service, a.endsAt))
  {
  }

  /** A list of windows and the clock times it stands for. */
  ghost predicate Lists(windows: seq<DayWindow>, w: World, a: Args, dow: int) {
    forall d :: d in windows <==> d.dayOfWeek == dow && OpensOn(w, a.staff, a.business, a.location, dow, d.startTime, d.endTime)
  }

  lemma GuardLists(w: World, a: Args)
    ensures var dow := WeekdayOf(a, Offset(w, a.business, a.location));
      && dow == DayOfWeek(BookingDay(w, a)) && Offset(w, a.business, a.location) == Zone(w, a)
      && Lists(GuardWindows(w, a.staff, a.business, a.location, dow), w, a, dow)
  {
    var dow := WeekdayOf(a, Offset(w, a.business, a.location));
    forall d: DayWindow
      ensures d in GuardWindows(w, a.staff, a.business, a.location, dow) <==>
        d.dayOfWeek == dow && OpensOn(w, a.staff, a.business, a.location, dow, d.startTime, d.endTime)
    {
      GuardWindowsAreThese(w, a.staff, a.business, a.location, dow, d);
    }
  }

  lemma HoursMeanOpen(w: World, a: Args)
    requires ValidWorld(w)
    ensures var windows := GuardWindows(w, a.staff, a.business, a.location, DayOfWeek(BookingDay(w, a)));
      (exists d :: d in windows && FitsWindow(w, a, d)) <==>
        IsOpen(w, a, BlockedFrom(w, a.service, a.startsAt), BlockedTo(w, a.service, a.endsAt))
  {
    var dow := WeekdayOf(a, Offset(w, a.business, a.location));
    GuardLists(w, a);
    GuardWindowsAreClocks(w, a.staff, a.business, a.location, dow);
    FittingMeansOpen(w, a, GuardWindows(w, a.staff, a.business, a.location, dow), dow, Offset(w, a.business, a.location));
  }

  lemma FittingMeansOpen(w: World, a: Args, windows: seq<DayWindow>, dow: int, offset: int)
    requires Lists(windows, w, a, dow) && dow == WeekdayOf(a, offset) && offset == Offset(w, a.business, a.location) == Zone(w, a)
    requires forall d :: d in windows ==> IsClock(d.startTime) && IsClock(d.endTime)
    ensures (exists d :: d in windows && FitsWindow(w, a, d)) <==>
      IsOpen(w, a, BlockedFrom(w, a.service, a.startsAt), BlockedTo(w, a.service, a.endsAt))
  {
    var from, to := BlockedFrom(w, a.service, a.startsAt), BlockedTo(w, a.service, a.endsAt);
    forall d | d in windows
      ensures FitsWindow(w, a, d) <==> ClocksFit(d.startTime, d.endTime, from, to, offset)
    {
      FitsMeans(w, a, d, offset);
    }
    if opens, closes :| OpensOn(w, a.staff, a.business, a.location, dow, opens, closes) && ClocksFit(opens, closes, from, to, offset) {
      assert DayWindow(dow, opens, closes) in windows;
    }
  }

  lemma FitsMeans(w: World, a: Args, d: DayWindow, offset: int)
    requires IsClock(d.startTime) && IsClock(d.endTime) && offset == Zone(w, a)
    ensures FitsWindow(w, a, d) <==>
      && Minutes(d.startTime) <= ClockMinute(BlockedFrom(w, a.service, a.startsAt), offset)
      && ClockMinute(BlockedTo(w, a.service, a.endsAt), offset) <= Minutes(d.endTime)
  {
    OccupiedIs(w, a);
    FitsInMinutes(w, a, d);
  }

  lemma ClosedMeans(w: World, a: Args)
    ensures var from, to := BlockedFrom(w, a.service, a.startsAt), BlockedTo(w, a.service, a.endsAt);
      && (OnTimeOff(w, a) <==> MeetsTimeOff(w, a.staff, from, to))
      && (OnClosure(w, a) <==> MeetsClosure(w, a.business, a.location, from, to))
  {
    OccupiedIs(w, a);
  }

  lemma RowOccupiedIs(w: World, r: Row)
    ensures OccupiedRow(w, r) == Interval(BlockedFrom(w, r.service, r.startsAt), BlockedTo(w, r.service, r.endsAt))
  {
  }

  lemma RivalsMean(w: World, rows: Rows, a: Args)
    ensures var from, to := BlockedFrom(w, a.service, a.startsAt), BlockedTo(w, a.service, a.endsAt);
      && (NoClash(w, rows, a) <==> !ProviderIsBusy(w, rows, a, from, to))
      && Mates(rows, a) == SeatsTaken(rows, a) && Seats(w, a.service) == SeatsOf(w, a.service)
      && (NoResourceClash(w, rows, a) <==> !ResourceIsBusy(w, rows, a, from, to))
  {
    OccupiedIs(w, a);
    forall id | id in rows
      ensures Overlap(OccupiedBy(w, a), OccupiedRow(w, rows[id])) <==>
        SharesTime(w, rows[id], BlockedFrom(w, a.service, a.startsAt), BlockedTo(w, a.service, a.endsAt))
      ensures Rival(a, id, rows[id]) <==> Competes(a, id, rows[id])
      ensures SameInstance(a, rows[id]) <==> IsSeatOf(a, rows[id])
    {
      RowOccupiedIs(w, rows[id]);
    }
  }

  lemma CalendarIsReference(w: World, a: Args)
    requires ValidWorld(w)
    ensures CalendarVerdict(w, a) ==
      ReferenceCalendar(w, a, BlockedFrom(w, a.service, a.startsAt), BlockedTo(w, a.service, a.endsAt))
  {
    HoursMeanOpen(w, a);
    ClosedMeans(w, a);
    assert Offset(w, a.business, a.location) == Zone(w, a);
  }

  lemma RowsAreReference(w: World, rows: Rows, a: Args)
    requires ValidWorld(w) && ValidRows(rows) && a.startsAt < a.endsAt
    ensures RowsVerdict(w, rows, a) ==
      ReferenceRows(w, rows, a, BlockedFrom(w, a.service, a.startsAt), BlockedTo(w, a.service, a.endsAt))
  {
    RivalsMean(w, rows, a);
    AcceptsExactlyBookable(w, rows, a);
  }

  /** The guard's answer, windowed queries, string comparison, counting and all, is the
      reference decision on every store. */
  lemma GuardIsReference(w: World, rows: Rows, a: Args)
    requires ValidWorld(w) && ValidRows(rows) && a.startsAt < a.endsAt
    ensures AssertBookableWindow(w, rows, a) == ReferenceVerdict(w, rows, a)
  {
    CalendarIsReference(w, a);
    RowsAreReference(w, rows, a);
  }

  predicate InWindow(opens: string, closes: string, midnight: int, from: int, to: int) {
    && IsClock(opens) && IsClock(closes)
    && midnight + 60_000 * Minutes(opens) <= from && to <= midnight + 60_000 * Minutes(closes)
  }

  /** Local midnight of the day on which the booking starts. */
  function MidnightOf(a: Args, offset: int): int {
    (a.startsAt + offset) / 86_400_000 * 86_400_000 - offset
  }

  /** The blocked interval lies in an opening window of the day on which the booking starts. */
  ghost predicate LiesInAWindow(w: World, a: Args, from: int, to: int) {
    var offset := Offset(w, a.business, a.location);
    exists opens, closes ::
      && OpensOn(w, a.staff, a.business, a.location, WeekdayOf(a, offset), opens, closes)
      && InWindow(opens, closes, MidnightOf(a, offset), from, to)
  }

  /** With buffers inside the local day and an end on the whole minute, a booking is
      accepted by the calendar exactly if it lies in an opening window and meets no time
      off of the provider and no closure that applies. */
  lemma CalendarAcceptsPlainly(w: World, a: Args)
    requires ValidWorld(w) && a.startsAt <= a.endsAt
    requires var offset := Offset(w, a.business, a.location);
      && SameLocalDay(BlockedFrom(w, a.service, a.startsAt), a.startsAt, offset)
      && SameLocalDay(BlockedTo(w, a.service, a.endsAt), a.startsAt, offset)
      && (BlockedTo(w, a.service, a.endsAt) + offset) % 60_000 == 0
    ensures var from, to := BlockedFrom(w, a.service, a.startsAt), BlockedTo(w, a.service, a.endsAt);
      CalendarVerdict(w, a) == Accepted <==>
        LiesInAWindow(w, a, from, to) && !MeetsTimeOff(w, a.staff, from, to) && !MeetsClosure(w, a.business, a.location, from, to)
  {
    ClosedMeans(w, a);
    OpenMeans(w, a);
    StaysOnItsDay(w, a);
    CalendarAcceptsExactly(w, a);
  }

  lemma StaysOnItsDay(w: World, a: Args)
    requires var offset := Offset(w, a.business, a.location);
      && SameLocalDay(BlockedFrom(w, a.service, a.startsAt), a.startsAt, offset)
      && SameLocalDay(BlockedTo(w, a.service, a.endsAt), a.startsAt, offset)
      && (BlockedTo(w, a.service, a.endsAt) + offset) % 60_000 == 0
    ensures WithinOneDay(w, a) && WholeMinuteEnd(w, a)
  {
    OccupiedIs(w, a);
    WholeMinute(BlockedTo(w, a.service, a.endsAt) + Offset(w, a.business, a.location));
  }

  lemma WholeMinute(t: int)
    requires t % 60_000 == 0
    ensures t % 86_400_000 % 60_000 == 0
  {
    var minutes := t / 60_000;
    var rest := 60_000 * (minutes % 1440);
    assert t == 86_400_000 * (minutes / 1440) + rest && 0 <= rest < 86_400_000;
    assert t % 86_400_000 == rest;
  }

  lemma OpenMeans(w: World, a: Args)
    requires ValidWorld(w)
    ensures Open(w, a) <==> LiesInAWindow(w, a, BlockedFrom(w, a.service, a.startsAt), BlockedTo(w, a.service, a.endsAt))
  {
    var dow := WeekdayOf(a, Offset(w, a.business, a.location));
    GuardLists(w, a);
    OpenInLists(w, a, GuardWindows(w, a.staff, a.business, a.location, dow), dow);
  }

  lemma OpenInLists(w: World, a: Args, windows: seq<DayWindow>, dow: int)
    requires Lists(windows, w, a, dow) && dow == WeekdayOf(a, Offset(w, a.business, a.location))
    ensures (exists d :: d in windows && IsClock(d.startTime) && IsClock(d.endTime) && Inside(w, a, d)) <==>
      LiesInAWindow(w, a, BlockedFrom(w, a.service, a.startsAt), BlockedTo(w, a.service, a.endsAt))
  {
    var from, to := BlockedFrom(w, a.service, a.startsAt), BlockedTo(w, a.service, a.endsAt);
    var midnight := MidnightOf(a, Offset(w, a.business, a.location));
    if d :| d in windows && IsClock(d.startTime) && IsClock(d.endTime) && Inside(w, a, d) {
      InsideMeans(w, a, d.dayOfWeek, d.startTime, d.endTime);
    }
    if opens, closes :| OpensOn(w, a.staff, a.business, a.location, dow, opens, closes) && InWindow(opens, closes, midnight, from, to) {
      InsideMeans(w, a, dow, opens, closes);
      assert DayWindow(dow, opens, closes) in windows;
    }
  }

  lemma InsideMeans(w: World, a: Args, dow: int, opens: string, closes: string)
    requires IsClock(opens) && IsClock(closes)
    ensures Inside(w, a, DayWindow(dow, opens, closes)) <==>
      InWindow(opens, closes, MidnightOf(a, Offset(w, a.business, a.location)),
               BlockedFrom(w, a.service, a.startsAt), BlockedTo(w, a.service, a.endsAt))
  {
    OccupiedIs(w, a);
  }
}
