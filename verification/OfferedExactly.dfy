/** What the slot search returns, from the stored fields alone, and exactly how that differs
    from what the guard accepts. */
module OfferedExactly {
  import opened Prelude
  import opened Clock
  import opened Calendar
  import opened Guard
  import opened GuardMeaning
  import opened DayGrid
  import opened Booking
  import opened Slots
  import opened SlotTheorems
  import opened OfferedAccepted

  // ---------- the windows of the search ----------

  /** The provider's rules if there are any on any day, else the branch's hours if there are
      any, else the business's, else nine to five from Monday to Friday. */
  ghost predicate SearchOpensOn(w: World, staff: Id, business: Id, location: Option<Id>, dow: int, from: string, to: string) {
    if exists r :: r in w.rules && r.staff == staff then
      StaffRule(staff, dow, from, to) in w.rules
    else if location.Some? && exists h :: h in w.hours && h.business == business && h.location == location then
      OpeningHours(business, location, dow, from, to) in w.hours
    else if exists h :: h in w.hours && h.business == business && h.location == None then
      OpeningHours(business, None, dow, from, to) in w.hours
    else
      1 <= dow <= 5 && from == "09:00" && to == "17:00"
  }

  function SearchHours(w: World, business: Id, location: Option<Id>): seq<DayWindow> {
    var hours := Filter(w.hours, (h: OpeningHours) =>
      h.business == business && (h.location == location || h.location == None));
    var branch := BranchHours(hours, location);
    if branch != [] then Map(branch, FromHours) else WEEKDAYS
  }

  lemma WeekdaysAreThese(d: DayWindow)
    ensures d in WEEKDAYS <==> 1 <= d.dayOfWeek <= 5 && d.startTime == "09:00" && d.endTime == "17:00"
  {
    assert WEEKDAYS[0].dayOfWeek == 1 && WEEKDAYS[1].dayOfWeek == 2 && WEEKDAYS[2].dayOfWeek == 3;
    assert WEEKDAYS[3].dayOfWeek == 4 && WEEKDAYS[4].dayOfWeek == 5;
    if 1 <= d.dayOfWeek <= 5 && d.startTime == "09:00" && d.endTime == "17:00" {
      assert d == WEEKDAYS[d.dayOfWeek - 1];
    }
  }

  lemma SearchHoursAreThese(w: World, business: Id, location: Option<Id>, d: DayWindow)
    ensures d in SearchHours(w, business, location) <==>
      if location.Some? && exists h :: h in w.hours && h.business == business && h.location == location then
        OpeningHours(business, location, d.dayOfWeek, d.startTime, d.endTime) in w.hours
      else if exists h :: h in w.hours && h.business == business && h.location == None then
        OpeningHours(business, None, d.dayOfWeek, d.startTime, d.endTime) in w.hours
      else 1 <= d.dayOfWeek <= 5 && d.startTime == "09:00" && d.endTime == "17:00"
  {
    var hours := Filter(w.hours, (h: OpeningHours) =>
      h.business == business && (h.location == location || h.location == None));
    var own := location.Some? && exists h :: h in w.hours && h.business == business && h.location == location;
    var chosen := if own then location else None;
    var branch := BranchHours(hours, location);
    forall h
      ensures h in branch <==> h in w.hours && h.business == business && h.location == chosen
    {
      BranchHoursMembers(hours, location, h);
    }
    if branch != [] {
      assert branch[0] in branch;
    }
    if d in Map(branch, FromHours) {
      var h := MapSource(branch, FromHours, d);
      assert h == OpeningHours(business, chosen, d.dayOfWeek, d.startTime, d.endTime);
    }
    var h := OpeningHours(business, chosen, d.dayOfWeek, d.startTime, d.endTime);
    assert h in branch ==> FromHours(h) in Map(branch, FromHours);
    WeekdaysAreThese(d);
  }

  lemma EngineWindowsAreThese(w: World, staff: Id, business: Id, location: Option<Id>, d: DayWindow)
    ensures d in EngineWindows(w, staff, business, location) <==>
      SearchOpensOn(w, staff, business, location, d.dayOfWeek, d.startTime, d.endTime)
  {
    var own := Filter(w.rules, (r: StaffRule) => r.staff == staff);
    if r :| r in w.rules && r.staff == staff {
      assert r in own;
      if d in Map(own, FromRule) {
        var x := MapSource(own, FromRule, d);
        assert x == StaffRule(staff, d.dayOfWeek, d.startTime, d.endTime);
      }
      var x := StaffRule(staff, d.dayOfWeek, d.startTime, d.endTime);
      assert x in own ==> FromRule(x) in Map(own, FromRule);
    } else {
      FilterNone(w.rules, (r: StaffRule) => r.staff == staff);
      SearchHoursAreThese(w, business, location, d);
    }
  }

  // ---------- the grid ----------

  /** The services together: widest buffers, summed durations. */
  lemma {:induction false} WidestIs(w: World, services: seq<Id>)
    requires services != []
    ensures (forall s :: s in services ==> BeforeOf(w, s) <= WidestBefore(w, services))
      && exists s :: s in services && BeforeOf(w, s) == WidestBefore(w, services)
    ensures (forall s :: s in services ==> AfterOf(w, s) <= WidestAfter(w, services))
      && exists s :: s in services && AfterOf(w, s) == WidestAfter(w, services)
  {
    assert services[0] in services;
    if |services| > 1 {
      WidestIs(w, services[1..]);
      assert forall s :: s in services <==> s == services[0] || s in services[1..];
    }
  }

  function BeforeOf(w: World, s: Id): int {
    if s in w.services then w.services[s].bufferBeforeMin else 0
  }

  function AfterOf(w: World, s: Id): int {
    if s in w.services then w.services[s].bufferAfterMin else 0
  }

  lemma {:induction false} DurationsAddUp(w: World, xs: seq<Id>, ys: seq<Id>)
    ensures TotalMinutes(w, xs + ys) == TotalMinutes(w, xs) + TotalMinutes(w, ys)
    ensures forall s :: s in w.services ==> TotalMinutes(w, [s]) == w.services[s].durationMinutes
  {
    if xs == [] {
      assert xs + ys == ys;
    } else {
      assert (xs + ys)[1..] == xs[1..] + ys;
      DurationsAddUp(w, xs[1..], ys);
    }
  }

  /** s is the k-th point of the grid of a window of local day `day`, buffers included. */
  predicate OnGrid(w: World, q: Query, day: int, opens: string, closes: string, k: nat, s: Slot)
    requires q.services != []
  {
    var midnight := day * 86_400_000 - Offset(w, q.business, q.location);
    var before, minutes, after := WidestBefore(w, q.services), TotalMinutes(w, q.services), WidestAfter(w, q.services);
    && IsClock(opens) && IsClock(closes)
    && s.startsAt == midnight + 60_000 * (Minutes(opens) + before) + k * (60_000 * (before + minutes + after))
    && s.endsAt == s.startsAt + 60_000 * minutes
    && s.endsAt + 60_000 * after <= midnight + 60_000 * Minutes(closes)
  }

  /** The search opens at `opens` on that local day; 1 January 1970 was a Thursday. */
  ghost predicate OpensThatDay(w: World, q: Query, day: int, opens: string, closes: string) {
    SearchOpensOn(w, q.staff, q.business, q.location, (day + 4) % 7, opens, closes)
  }

  ghost predicate OnSomeGrid(w: World, q: Query, s: Slot)
    requires q.services != []
  {
    exists day: int, opens, closes, k: nat :: OpensThatDay(w, q, day, opens, closes) && OnGrid(w, q, day, opens, closes, k, s)
  }

  /** A point of the grid inside the requested days, not before the earliest start. */
  ghost predicate Candidate(w: World, q: Query, s: Slot)
    requires q.services != []
  {
    && OnSomeGrid(w, q, s)
    && FirstInstant(q) <= s.startsAt && s.endsAt <= LastInstant(q) && q.earliest <= s.startsAt
  }

  function FirstInstant(q: Query): int {
    q.firstDay * 86_400_000 - q.requestZone
  }

  /** 23:59:59 of the last day. */
  function LastInstant(q: Query): int {
    q.lastDay * 86_400_000 - q.requestZone + 86_399_000
  }

  // ---------- what blocks a point ----------

  /** A pending or confirmed appointment within eight hours of the requested days. */
  predicate Fetched(q: Query, r: Row) {
    && (r.status == PENDING || r.status == CONFIRMED)
    && r.startsAt < LastInstant(q) + 480 * 60_000 && r.endsAt > FirstInstant(q) - 480 * 60_000
  }

  predicate SeatIn(q: Query, r: Row, startsAt: int)
    requires q.services != []
  {
    r.service == q.services[0] && r.startsAt == startsAt
  }

  /** Another provider's appointment on a resource that the services need. */
  predicate UsesOurResource(w: World, q: Query, r: Row) {
    && r.business == q.business && r.staff != q.staff
    && r.service in w.services && w.services[r.service].resource.Some?
    && exists s :: s in q.services && s in w.services && w.services[s].resource == w.services[r.service].resource
  }

  predicate InDays(q: Query, startsAt: int, endsAt: int) {
    startsAt < LastInstant(q) && endsAt > FirstInstant(q)
  }

  ghost predicate ProviderBusy(w: World, rows: Rows, q: Query, startsAt: int, from: int, to: int)
    requires q.services != []
  {
    exists id :: id in rows && rows[id].staff == q.staff && Fetched(q, rows[id]) && SharesTime(w, rows[id], from, to)
      && !SeatIn(q, rows[id], startsAt)
  }

  function SeatsHeld(w: World, rows: Rows, q: Query, startsAt: int, from: int, to: int): set<Id>
    requires q.services != []
  {
    set id | id in rows && rows[id].staff == q.staff && Fetched(q, rows[id]) && SharesTime(w, rows[id], from, to)
      && SeatIn(q, rows[id], startsAt)
  }

  ghost predicate ResourceBusy(w: World, rows: Rows, q: Query, from: int, to: int) {
    exists id :: id in rows && Fetched(q, rows[id]) && UsesOurResource(w, q, rows[id]) && SharesTime(w, rows[id], from, to)
  }

  ghost predicate Away(w: World, q: Query, from: int, to: int) {
    exists t :: t in w.timeOffs && t.staff == q.staff && InDays(q, t.startsAt, t.endsAt) && from < t.endsAt && t.startsAt < to
  }

  ghost predicate Closed(w: World, q: Query, from: int, to: int) {
    exists c :: c in w.closures && c.business == q.business && (c.location == None || c.location == q.location)
      && InDays(q, c.startsAt, c.endsAt) && from < c.endsAt && c.startsAt < to
  }

  /** Nothing else, and fewer clients of the same class than seats, in the widest interval. */
  ghost predicate Unblocked(w: World, rows: Rows, q: Query, startsAt: int, from: int, to: int)
    requires q.services != []
  {
    && !ProviderBusy(w, rows, q, startsAt, from, to)
    && |SeatsHeld(w, rows, q, startsAt, from, to)| < SeatsOf(w, q.services[0])
    && !ResourceBusy(w, rows, q, from, to) && !Away(w, q, from, to) && !Closed(w, q, from, to)
  }

  function WideFrom(w: World, q: Query, s: Slot): int
    requires q.services != []
  {
    s.startsAt - 60_000 * WidestBefore(w, q.services)
  }

  function WideTo(w: World, q: Query, s: Slot): int
    requires q.services != []
  {
    s.startsAt + 60_000 * (TotalMinutes(w, q.services) + WidestAfter(w, q.services))
  }

  // ---------- the search is that ----------

  lemma TakenIs(w: World, q: Query, start: int)
    requires q.services != []
    ensures var s := Slot(start, start);
      Taken(Combined(w, q.services), start) == Interval(WideFrom(w, q, s), WideTo(w, q, s))
  {
  }

  lemma AppointmentsBlock(w: World, rows: Rows, q: Query, s: Slot)
    requires q.services != []
    ensures var from, to := WideFrom(w, q, s), WideTo(w, q, s);
      !BlockedByAppointment(ViewOf(w, rows, q), s.startsAt) <==>
        !ProviderBusy(w, rows, q, s.startsAt, from, to) && |SeatsHeld(w, rows, q, s.startsAt, from, to)| < SeatsOf(w, q.services[0])
  {
    var v, from, to := ViewOf(w, rows, q), WideFrom(w, q, s), WideTo(w, q, s);
    TakenIs(w, q, s.startsAt);
    var overlapping, classmates := OverlappingRows(v, s.startsAt), ClassmateRows(v, s.startsAt);
    SubsetSize(classmates, overlapping);
    forall id | id in rows
      ensures id in overlapping <==> rows[id].staff == q.staff && Fetched(q, rows[id]) && SharesTime(w, rows[id], from, to)
    {
      RowOccupiedIs(w, rows[id]);
    }
    assert classmates == SeatsHeld(w, rows, q, s.startsAt, from, to);
    assert v.bundle.seats == SeatsOf(w, q.services[0]);
  }

  ghost predicate SomeMeets(blocks: set<Interval>, taken: Interval) {
    exists b :: b in blocks && Overlap(taken, b)
  }

  lemma BlocksSplit(w: World, rows: Rows, q: Query, s: Slot)
    requires q.services != []
    ensures var taken := Taken(Combined(w, q.services), s.startsAt);
      BlockedByTimeOff(ViewOf(w, rows, q), s.startsAt) <==>
        SomeMeets(StaffTimeOff(w, q), taken) || SomeMeets(BusyResources(w, rows, q), taken) || SomeMeets(Closures(w, q), taken)
  {
  }

  lemma AwayMeans(w: World, q: Query, s: Slot)
    requires q.services != []
    ensures SomeMeets(StaffTimeOff(w, q), Taken(Combined(w, q.services), s.startsAt)) <==>
      Away(w, q, WideFrom(w, q, s), WideTo(w, q, s))
  {
    TakenIs(w, q, s.startsAt);
    var taken := Taken(Combined(w, q.services), s.startsAt);
    if t :| t in w.timeOffs && t.staff == q.staff && InDays(q, t.startsAt, t.endsAt) && taken.start < t.endsAt && t.startsAt < taken.end {
      assert Interval(t.startsAt, t.endsAt) in StaffTimeOff(w, q);
    }
  }

  lemma ClosedMeansToo(w: World, q: Query, s: Slot)
    requires q.services != []
    ensures SomeMeets(Closures(w, q), Taken(Combined(w, q.services), s.startsAt)) <==>
      Closed(w, q, WideFrom(w, q, s), WideTo(w, q, s))
  {
    TakenIs(w, q, s.startsAt);
    var taken := Taken(Combined(w, q.services), s.startsAt);
    if c :| (c in w.closures && c.business == q.business && (c.location == None || c.location == q.location)
             && InDays(q, c.startsAt, c.endsAt) && taken.start < c.endsAt && c.startsAt < taken.end) {
      assert Interval(c.startsAt, c.endsAt) in Closures(w, q);
    }
  }

  lemma ResourceMeans(w: World, rows: Rows, q: Query, s: Slot)
    requires q.services != []
    ensures SomeMeets(BusyResources(w, rows, q), Taken(Combined(w, q.services), s.startsAt)) <==>
      ResourceBusy(w, rows, q, WideFrom(w, q, s), WideTo(w, q, s))
  {
    TakenIs(w, q, s.startsAt);
    var taken := Taken(Combined(w, q.services), s.startsAt);
    forall id | id in rows
      ensures OccupiedRow(w, rows[id]) == Interval(BlockedFrom(w, rows[id].service, rows[id].startsAt), BlockedTo(w, rows[id].service, rows[id].endsAt))
    {
      RowOccupiedIs(w, rows[id]);
    }
    if id :| id in rows && Fetched(q, rows[id]) && UsesOurResource(w, q, rows[id]) && SharesTime(w, rows[id], taken.start, taken.end) {
      assert ResourceOf(w, rows[id].service).value in ResourceIds(w, q.services);
      assert OccupiedRow(w, rows[id]) in BusyResources(w, rows, q);
    }
  }

  lemma FreeMeans(w: World, rows: Rows, q: Query, s: Slot)
    requires q.services != []
    ensures Free(ViewOf(w, rows, q), s.startsAt) <==> Unblocked(w, rows, q, s.startsAt, WideFrom(w, q, s), WideTo(w, q, s))
  {
    AppointmentsBlock(w, rows, q, s);
    BlocksSplit(w, rows, q, s);
    AwayMeans(w, q, s);
    ClosedMeansToo(w, q, s);
    ResourceMeans(w, rows, q, s);
  }

  /** The k-th slot of a bundle's grid, in milliseconds. */
  lemma GridPointIs(b: Bundle, windowStart: int, windowEnd: int, k: nat, s: Slot)
    ensures var start := AddMinutes(windowStart, b.bufferBeforeMin);
      s == SlotAt(b, start + k * TotalMs(b)) && Taken(b, s.startsAt).end <= windowEnd <==>
        && s.startsAt == windowStart + 60_000 * b.bufferBeforeMin + k * (60_000 * (b.bufferBeforeMin + b.durationMinutes + b.bufferAfterMin))
        && s.endsAt == s.startsAt + 60_000 * b.durationMinutes
        && s.endsAt + 60_000 * b.bufferAfterMin <= windowEnd
  {
    assert TotalMs(b) == 60_000 * (b.bufferBeforeMin + b.durationMinutes + b.bufferAfterMin);
  }

  lemma GridMeans(w: World, rows: Rows, q: Query, day: int, d: DayWindow, k: nat, s: Slot)
    requires ValidWorld(w) && ValidQuery(w, q) && IsClock(d.startTime) && IsClock(d.endTime)
    ensures var v, zone := ViewOf(w, rows, q), SearchZone(w, q);
      var start := AddMinutes(FromZoned(day, Minutes(d.startTime), zone), v.bundle.bufferBeforeMin);
      IsFreeGridPoint(v, start, FromZoned(day, Minutes(d.endTime), zone), k, s) <==>
        && OnGrid(w, q, day, d.startTime, d.endTime, k, s)
        && Unblocked(w, rows, q, s.startsAt, WideFrom(w, q, s), WideTo(w, q, s))
  {
    FreeMeans(w, rows, q, s);
    var zone := SearchZone(w, q);
    GridPointIs(Combined(w, q.services), FromZoned(day, Minutes(d.startTime), zone), FromZoned(day, Minutes(d.endTime), zone), k, s);
    OnGridIs(w, q, day, d, k, s);
  }

  lemma OnGridIs(w: World, q: Query, day: int, d: DayWindow, k: nat, s: Slot)
    requires q.services != [] && IsClock(d.startTime) && IsClock(d.endTime)
    ensures var b, zone := Combined(w, q.services), SearchZone(w, q);
      OnGrid(w, q, day, d.startTime, d.endTime, k, s) <==>
        && s.startsAt == FromZoned(day, Minutes(d.startTime), zone) + 60_000 * b.bufferBeforeMin
                         + k * (60_000 * (b.bufferBeforeMin + b.durationMinutes + b.bufferAfterMin))
        && s.endsAt == s.startsAt + 60_000 * b.durationMinutes
        && s.endsAt + 60_000 * b.bufferAfterMin <= FromZoned(day, Minutes(d.endTime), zone)
  {
    assert Offset(w, q.business, q.location) == SearchZone(w, q);
  }

  /** On the window d of a local day, the search offers exactly the unblocked grid points. */
  lemma WindowOffersExactly(w: World, rows: Rows, q: Query, day: int, d: DayWindow, s: Slot)
    requires ValidWorld(w) && ValidQuery(w, q) && IsClock(d.startTime) && IsClock(d.endTime) && ValidBundle(Combined(w, q.services))
    ensures Offers(ViewOf(w, rows, q), day, SearchZone(w, q), d, s) <==>
      && Unblocked(w, rows, q, s.startsAt, WideFrom(w, q, s), WideTo(w, q, s))
      && exists k: nat :: OnGrid(w, q, day, d.startTime, d.endTime, k, s)
  {
    var v, zone := ViewOf(w, rows, q), SearchZone(w, q);
    var windowStart, windowEnd := FromZoned(day, Minutes(d.startTime), zone), FromZoned(day, Minutes(d.endTime), zone);
    var start := AddMinutes(windowStart, v.bundle.bufferBeforeMin);
    OffersTheFreeGrid(v, windowStart, windowEnd, s);
    if k: nat :| IsFreeGridPoint(v, start, windowEnd, k, s) {
      GridMeans(w, rows, q, day, d, k, s);
    }
    if k: nat :| OnGrid(w, q, day, d.startTime, d.endTime, k, s) {
      GridMeans(w, rows, q, day, d, k, s);
    }
  }

  lemma SomeDayMeans(w: World, rows: Rows, q: Query, s: Slot)
    requires ValidWorld(w) && ValidQuery(w, q)
    ensures OfferedSomeDay(w, rows, q, s) <==>
      OnSomeGrid(w, q, s) && Unblocked(w, rows, q, s.startsAt, WideFrom(w, q, s), WideTo(w, q, s))
  {
    CombinedIsWidest(w, q.services);
    EngineWindowsAreClocks(w, q.staff, q.business, q.location);
    var v, zone, windows := ViewOf(w, rows, q), SearchZone(w, q), EngineWindows(w, q.staff, q.business, q.location);
    if day: int, d :| d in windows && OffersOn(v, day, zone, d, s) {
      EngineWindowsAreThese(w, q.staff, q.business, q.location, d);
      WindowOffersExactly(w, rows, q, day, d, s);
      assert OpensThatDay(w, q, day, d.startTime, d.endTime);
    }
    if day: int, opens, closes, k: nat :| OpensThatDay(w, q, day, opens, closes) && OnGrid(w, q, day, opens, closes, k, s) {
      var d := DayWindow((day + 4) % 7, opens, closes);
      EngineWindowsAreThese(w, q.staff, q.business, q.location, d);
      WindowOffersExactly(w, rows, q, day, d, s);
      assert Unblocked(w, rows, q, s.startsAt, WideFrom(w, q, s), WideTo(w, q, s)) ==> OffersOn(v, day, zone, d, s);
    }
  }

  /** The search returns exactly the candidates that nothing blocks. */
  lemma OffersExactly(w: World, rows: Rows, q: Query, s: Slot)
    requires ValidWorld(w) && ValidQuery(w, q)
    ensures s in Offered(w, rows, q) <==>
      Candidate(w, q, s) && Unblocked(w, rows, q, s.startsAt, WideFrom(w, q, s), WideTo(w, q, s))
  {
    SearchIsComplete(w, rows, q, s);
    SomeDayMeans(w, rows, q, s);
  }

  // ---------- accepted, and offered ----------

  /** A provider works for one business. */
  predicate WorksFor(rows: Rows, staff: Id, business: Id) {
    forall id :: id in rows && rows[id].staff == staff ==> rows[id].business == business
  }

  /** An interval meets the widest one without meeting the primary service's. */
  predicate OnlyWide(start: int, end: int, from: int, to: int, wideFrom: int, wideTo: int) {
    start < wideTo && wideFrom < end && !(start < to && from < end)
  }

  ghost predicate OnlyWideAppointment(w: World, rows: Rows, q: Query, startsAt: int, from: int, to: int, wideFrom: int, wideTo: int)
    requires q.services != []
  {
    exists id :: id in rows && rows[id].staff == q.staff && Fetched(q, rows[id]) && !SeatIn(q, rows[id], startsAt)
      && OnlyWide(BlockedFrom(w, rows[id].service, rows[id].startsAt), BlockedTo(w, rows[id].service, rows[id].endsAt), from, to, wideFrom, wideTo)
  }

  ghost predicate OnlyWideAway(w: World, q: Query, from: int, to: int, wideFrom: int, wideTo: int) {
    || (exists t :: t in w.timeOffs && t.staff == q.staff && InDays(q, t.startsAt, t.endsAt)
          && OnlyWide(t.startsAt, t.endsAt, from, to, wideFrom, wideTo))
    || (exists c :: c in w.closures && c.business == q.business && (c.location == None || c.location == q.location)
          && InDays(q, c.startsAt, c.endsAt) && OnlyWide(c.startsAt, c.endsAt, from, to, wideFrom, wideTo))
  }

  /** Another provider uses the resource next to the primary service's interval, or in a
      class of the same service and start. */
  ghost predicate OnlyWideResource(w: World, rows: Rows, q: Query, startsAt: int, from: int, to: int, wideFrom: int, wideTo: int)
    requires q.services != []
  {
    exists id :: id in rows && Fetched(q, rows[id]) && UsesOurResource(w, q, rows[id]) && SharesTime(w, rows[id], wideFrom, wideTo)
      && (!SharesTime(w, rows[id], from, to) || SeatIn(q, rows[id], startsAt))
  }

  /** What blocks the search and not the guard. */
  ghost predicate OnlyTheSearchMinds(w: World, rows: Rows, q: Query, s: Slot)
    requires q.services != []
  {
    var from, to := BlockedFrom(w, q.services[0], s.startsAt), BlockedTo(w, q.services[0], s.startsAt + 60_000 * TotalMinutes(w, q.services));
    var wideFrom, wideTo := WideFrom(w, q, s), WideTo(w, q, s);
    || OnlyWideAppointment(w, rows, q, s.startsAt, from, to, wideFrom, wideTo)
    || OnlyWideAway(w, q, from, to, wideFrom, wideTo)
    || OnlyWideResource(w, rows, q, s.startsAt, from, to, wideFrom, wideTo)
  }

  /** The guard lets the slot's booking through. */
  predicate Accepts(w: World, rows: Rows, q: Query, s: Slot)
    requires q.services != []
  {
    AssertBookableWindow(w, rows, ArgsFor(w, q, s)) == Accepted
  }

  /** The primary service's interval. */
  function NarrowFrom(w: World, q: Query, s: Slot): int
    requires q.services != []
  {
    BlockedFrom(w, q.services[0], s.startsAt)
  }

  function NarrowTo(w: World, q: Query, s: Slot): int
    requires q.services != []
  {
    BlockedTo(w, q.services[0], s.startsAt + 60_000 * TotalMinutes(w, q.services))
  }

  lemma AcceptsMeans(w: World, rows: Rows, q: Query, s: Slot)
    requires ValidWorld(w) && ValidQuery(w, q) && ValidRows(rows) && Accepts(w, rows, q, s)
    ensures var a, from, to := ArgsFor(w, q, s), NarrowFrom(w, q, s), NarrowTo(w, q, s);
      && a.business == q.business && a.staff == q.staff && a.service == q.services[0] && a.location == q.location
      && a.startsAt == s.startsAt && a.exclude == None
      && !MeetsTimeOff(w, q.staff, from, to) && !MeetsClosure(w, q.business, q.location, from, to)
      && !ProviderIsBusy(w, rows, a, from, to) && |SeatsTaken(rows, a)| < SeatsOf(w, q.services[0])
      && !ResourceIsBusy(w, rows, a, from, to)
  {
    var a := ArgsFor(w, q, s);
    TotalMinutesPositive(w, q.services);
    GuardIsReference(w, rows, a);
  }

  lemma AcceptedAppointments(w: World, rows: Rows, q: Query, s: Slot, a: Args)
    requires q.services != [] && WorksFor(rows, q.staff, q.business)
    requires a.business == q.business && a.staff == q.staff && a.service == q.services[0] && a.startsAt == s.startsAt && a.exclude == None
    requires !ProviderIsBusy(w, rows, a, NarrowFrom(w, q, s), NarrowTo(w, q, s)) && |SeatsTaken(rows, a)| < SeatsOf(w, q.services[0])
    requires !OnlyTheSearchMinds(w, rows, q, s)
    ensures !ProviderBusy(w, rows, q, s.startsAt, WideFrom(w, q, s), WideTo(w, q, s))
    ensures |SeatsHeld(w, rows, q, s.startsAt, WideFrom(w, q, s), WideTo(w, q, s))| < SeatsOf(w, q.services[0])
  {
    SubsetSize(SeatsHeld(w, rows, q, s.startsAt, WideFrom(w, q, s), WideTo(w, q, s)), SeatsTaken(rows, a));
  }

  lemma AcceptedResources(w: World, rows: Rows, q: Query, s: Slot)
    requires q.services != [] && !OnlyTheSearchMinds(w, rows, q, s)
    requires ArgsFor(w, q, s).exclude == None && ArgsFor(w, q, s).business == q.business
    requires ArgsFor(w, q, s).service == q.services[0] && ArgsFor(w, q, s).startsAt == s.startsAt
    requires !ResourceIsBusy(w, rows, ArgsFor(w, q, s), NarrowFrom(w, q, s), NarrowTo(w, q, s))
    ensures !ResourceBusy(w, rows, q, WideFrom(w, q, s), WideTo(w, q, s))
  {
    ResourcesAreOurs(w, rows, q, s);
  }

  lemma AcceptedCalendar(w: World, rows: Rows, q: Query, s: Slot)
    requires q.services != [] && q.location.Some? && !OnlyTheSearchMinds(w, rows, q, s)
    requires !MeetsTimeOff(w, q.staff, NarrowFrom(w, q, s), NarrowTo(w, q, s))
    requires !MeetsClosure(w, q.business, q.location, NarrowFrom(w, q, s), NarrowTo(w, q, s))
    ensures !Away(w, q, WideFrom(w, q, s), WideTo(w, q, s)) && !Closed(w, q, WideFrom(w, q, s), WideTo(w, q, s))
  {
  }

  lemma AcceptedIsUnblocked(w: World, rows: Rows, q: Query, s: Slot)
    requires ValidWorld(w) && ValidQuery(w, q) && ValidRows(rows) && q.location.Some? && WorksFor(rows, q.staff, q.business)
    requires Accepts(w, rows, q, s) && !OnlyTheSearchMinds(w, rows, q, s)
    ensures Unblocked(w, rows, q, s.startsAt, WideFrom(w, q, s), WideTo(w, q, s))
  {
    AcceptsMeans(w, rows, q, s);
    AcceptedAppointments(w, rows, q, s, ArgsFor(w, q, s));
    AcceptedResources(w, rows, q, s);
    AcceptedCalendar(w, rows, q, s);
  }

  lemma UnblockedMindsNothing(w: World, rows: Rows, q: Query, s: Slot)
    requires q.services != [] && Unblocked(w, rows, q, s.startsAt, WideFrom(w, q, s), WideTo(w, q, s))
    ensures !OnlyTheSearchMinds(w, rows, q, s)
  {
  }

  lemma ResourcesAreOurs(w: World, rows: Rows, q: Query, s: Slot)
    requires q.services != []
    ensures forall id :: id in rows && UsesOurResource(w, q, rows[id]) ==>
      w.services[rows[id].service].resource.value in ArgsFor(w, q, s).resources
  {
    forall id | id in rows && UsesOurResource(w, q, rows[id])
      ensures w.services[rows[id].service].resource.value in ArgsFor(w, q, s).resources
    {
      var x :| x in q.services && x in w.services && w.services[x].resource == w.services[rows[id].service].resource;
      assert ResourceOf(w, x).value in ResourceIds(w, q.services);
    }
  }

  /** For a branch and a candidate inside the searched days: offered exactly if the guard
      accepts it and nothing blocks only the search. */
  lemma OfferedExactlyIfAccepted(w: World, rows: Rows, q: Query, s: Slot)
    requires ValidWorld(w) && ValidQuery(w, q) && ValidRows(rows) && q.location.Some? && WorksFor(rows, q.staff, q.business)
    requires Candidate(w, q, s) && InsideSearch(w, q, s)
    ensures s in Offered(w, rows, q) <==> Accepts(w, rows, q, s) && !OnlyTheSearchMinds(w, rows, q, s)
  {
    OffersExactly(w, rows, q, s);
    if s in Offered(w, rows, q) {
      OfferedIsAccepted(w, rows, q, s);
      UnblockedMindsNothing(w, rows, q, s);
    } else if Accepts(w, rows, q, s) && !OnlyTheSearchMinds(w, rows, q, s) {
      AcceptedIsUnblocked(w, rows, q, s);
    }
  }

  /** With one service, every candidate that the guard accepts is offered, unless another
      provider holds a class of it with the same start on the same resource. */
  lemma AcceptedIsOffered(w: World, rows: Rows, q: Query, s: Slot)
    requires ValidWorld(w) && ValidQuery(w, q) && ValidRows(rows) && q.location.Some? && WorksFor(rows, q.staff, q.business)
    requires Candidate(w, q, s) && |q.services| == 1 && Accepts(w, rows, q, s)
    requires forall id :: id in rows && Fetched(q, rows[id]) && UsesOurResource(w, q, rows[id]) ==> !SeatIn(q, rows[id], s.startsAt)
    ensures s in Offered(w, rows, q)
  {
    OneServiceMindsNothing(w, rows, q, s);
    AcceptedIsUnblocked(w, rows, q, s);
    OffersExactly(w, rows, q, s);
  }

  lemma OneServiceMindsNothing(w: World, rows: Rows, q: Query, s: Slot)
    requires |q.services| == 1
    requires forall id :: id in rows && Fetched(q, rows[id]) && UsesOurResource(w, q, rows[id]) ==> !SeatIn(q, rows[id], s.startsAt)
    ensures !OnlyTheSearchMinds(w, rows, q, s)
  {
    OneServiceIsNarrow(w, q, s);
  }

  lemma OneServiceIsNarrow(w: World, q: Query, s: Slot)
    requires |q.services| == 1
    ensures BlockedFrom(w, q.services[0], s.startsAt) == WideFrom(w, q, s)
    ensures BlockedTo(w, q.services[0], s.startsAt + 60_000 * TotalMinutes(w, q.services)) == WideTo(w, q, s)
  {
  }
}
