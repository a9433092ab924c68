/** The calendar never offers a time the booking transaction would refuse. */
module OfferedAccepted {
  import opened Prelude
  import opened Clock
  import opened Calendar
  import opened Guard
  import opened DayGrid
  import opened Booking
  import opened Slots
  import opened SlotTheorems

  // ---------- the opening windows the two sides use ----------

  /** The windows the search uses on a weekday are exactly those the guard uses, as soon
      as the search has any; where it has none the guard falls back to further hours and
      is never without a window. */
  lemma GuardFallsBackExactly(w: World, staff: Id, business: Id, location: Option<Id>, dow: int)
    ensures var engine := WindowsOn(EngineWindows(w, staff, business, location), dow);
      var guard := GuardWindows(w, staff, business, location, dow);
      && (forall d :: d in engine ==> d in guard)
      && ((forall d :: d in guard ==> d in engine) <==> engine != [])
  {
    var engine := WindowsOn(EngineWindows(w, staff, business, location), dow);
    var guard := GuardWindows(w, staff, business, location, dow);
    assert guard != [];
    assert guard[0] in guard;
    if w.rules != [] && exists r :: r in w.rules && r.staff == staff {
      OwnRulesAgree(w, staff, business, location, dow);
    } else {
      BranchHoursAgree(w, staff, business, location, dow);
    }
    if engine != [] {
      assert engine[0] in engine;
    }
  }

  /** No rules and no hours. */
  function NeverConfigured(): World {
    OpenOnThursday(0).(rules := [], hours := [])
  }

  lemma SundayWindows()
    ensures var w := NeverConfigured();
      && ValidWorld(w)
      && EngineWindows(w, 0, 0, Some(0)) == WEEKDAYS
      && GuardWindows(w, 0, 0, Some(0), 0) == [DayWindow(0, "09:00", "17:00")]
  {
  }

  /** A returned slot starts on a weekday for which the search has a window. */
  lemma OfferedOnAnOpenDay(w: World, rows: Rows, q: Query, s: Slot)
    requires ValidWorld(w) && ValidQuery(w, q)
    ensures s in AllSlots(w, rows, q) ==>
      exists d :: d in EngineWindows(w, q.staff, q.business, q.location) && d.dayOfWeek == DayOfWeek(LocalDay(s.startsAt, SearchZone(w, q)))
  {
    SearchIsComplete(w, rows, q, s);
    if s in AllSlots(w, rows, q) {
      CombinedIsWidest(w, q.services);
      EngineWindowsAreClocks(w, q.staff, q.business, q.location);
      var v, zone := ViewOf(w, rows, q), SearchZone(w, q);
      var day: int, d :| d in EngineWindows(w, q.staff, q.business, q.location) && OffersOn(v, day, zone, d, s);
      OfferedInsideWindow(v, day, zone, d, s);
    }
  }

  /** Sunday, 4 January 1970, at 10:00: no search for that branch returns it, whatever the
      range, and the guard accepts it. */
  lemma SundayIsOnlyOpenToTheGuard(q: Query)
    requires ValidQuery(NeverConfigured(), q) && q.business == q.staff == 0 && q.location == Some(0)
    ensures var w, startsAt := NeverConfigured(), 3 * DAY_MS + 600 * MINUTE_MS;
      && ValidWorld(w)
      && AssertBookableWindow(w, map[], HalfHourAt(startsAt)) == Accepted
      && Slot(startsAt, startsAt + 30 * MINUTE_MS) !in AllSlots(w, map[], q)
  {
    var w, startsAt := NeverConfigured(), 3 * DAY_MS + 600 * MINUTE_MS;
    SundayWindows();
    SundayIsAccepted();
    OnDay(startsAt, 0, 3);
    assert SearchZone(w, q) == 0;
    assert forall d :: d in WEEKDAYS ==> d.dayOfWeek != 0;
    OfferedOnAnOpenDay(w, map[], q, Slot(startsAt, startsAt + 30 * MINUTE_MS));
  }

  lemma SundayIsAccepted()
    ensures AssertBookableWindow(NeverConfigured(), map[], HalfHourAt(3 * DAY_MS + 600 * MINUTE_MS)) == Accepted
  {
    var w, a, d := NeverConfigured(), HalfHourAt(3 * DAY_MS + 600 * MINUTE_MS), DayWindow(0, "09:00", "17:00");
    SundayWindows();
    OnDay(a.startsAt, 0, 3);
    assert BookingDay(w, a) == 3;
    assert d in GuardWindows(w, 0, 0, Some(0), DayOfWeek(BookingDay(w, a)));
    LocalSplit(OccupiedBy(w, a).start, 0);
    LocalSplit(OccupiedBy(w, a).end, 0);
    FitsInMinutes(w, a, d);
    EmptyCalendarAccepts(w, a);
  }

  lemma EmptyCalendarAccepts(w: World, a: Args)
    requires ValidWorld(w) && a.startsAt < a.endsAt
    ensures RowsVerdict(w, map[], a) == Accepted
  {
    AcceptsExactlyBookable(w, map[], a);
    assert Mates(map[], a) == {};
  }

  lemma OwnRulesAgree(w: World, staff: Id, business: Id, location: Option<Id>, dow: int)
    requires exists r :: r in w.rules && r.staff == staff
    ensures var engine := WindowsOn(EngineWindows(w, staff, business, location), dow);
      var guard := GuardWindows(w, staff, business, location, dow);
      && (engine != [] ==> forall d :: d in engine <==> d in guard)
  {
    var engine := WindowsOn(EngineWindows(w, staff, business, location), dow);
    var all := Filter(w.rules, (r: StaffRule) => r.staff == staff);
    var today := Filter(w.rules, (r: StaffRule) => r.staff == staff && r.dayOfWeek == dow);
    var r :| r in w.rules && r.staff == staff;
    assert r in all;
    if engine != [] {
      assert engine[0] in engine;
      var r0 := MapSource(all, FromRule, engine[0]);
      assert r0 in today;
      forall d
        ensures d in engine <==> d in GuardWindows(w, staff, business, location, dow)
      {
        if d in engine {
          var x := MapSource(all, FromRule, d);
          assert x in today;
        }
        if d in Map(today, FromRule) {
          var x := MapSource(today, FromRule, d);
          assert x in all;
        }
      }
    }
  }

  /** Narrowing the hours to a weekday keeps the branch-or-business choice as long as the
      chosen hours cover that weekday. */
  lemma BranchHoursOnADay(all: seq<OpeningHours>, today: seq<OpeningHours>, location: Option<Id>, dow: int)
    requires forall h :: h in today <==> h in all && h.dayOfWeek == dow
    requires forall h :: h in all ==> h.location == location || h.location == None
    ensures (exists h :: h in BranchHours(all, location) && h.dayOfWeek == dow) ==>
      forall h :: h in BranchHours(today, location) <==> h in BranchHours(all, location) && h.dayOfWeek == dow
    ensures BranchHours(all, location) == [] ==> BranchHours(today, location) == []
  {
    if BranchHours(today, location) != [] {
      var h := BranchHours(today, location)[0];
      assert h in BranchHours(today, location);
      if g :| location.Some? && g in all && g.location == location {
        assert g in BranchHours(all, location);
      } else {
        assert h in BranchHours(all, location);
      }
    }
  }

  lemma BranchHoursAgree(w: World, staff: Id, business: Id, location: Option<Id>, dow: int)
    requires !exists r :: r in w.rules && r.staff == staff
    ensures var engine := WindowsOn(EngineWindows(w, staff, business, location), dow);
      var guard := GuardWindows(w, staff, business, location, dow);
      && (engine != [] ==> forall d :: d in engine <==> d in guard)
  {
    var windows := EngineWindows(w, staff, business, location);
    var engine, guard := WindowsOn(windows, dow), GuardWindows(w, staff, business, location, dow);
    var all := Filter(w.hours, (h: OpeningHours) =>
      h.business == business && (h.location == location || h.location == None));
    var today := Filter(w.hours, (h: OpeningHours) =>
      h.business == business && h.dayOfWeek == dow && (h.location == location || h.location == None));
    var own := Filter(w.rules, (r: StaffRule) => r.staff == staff);
    var ownToday := Filter(w.rules, (r: StaffRule) => r.staff == staff && r.dayOfWeek == dow);
    FilterNone(w.rules, (r: StaffRule) => r.staff == staff);
    FilterNone(w.rules, (r: StaffRule) => r.staff == staff && r.dayOfWeek == dow);
    BranchHoursOnADay(all, today, location, dow);
    var chosen, chosenToday := BranchHours(all, location), BranchHours(today, location);
    if engine != [] && chosen != [] {
      assert engine[0] in engine;
      var h0 := MapSource(chosen, FromHours, engine[0]);
      assert h0 in chosenToday;
      forall d
        ensures d in engine <==> d in guard
      {
        if d in engine {
          var h := MapSource(chosen, FromHours, d);
          assert h in chosenToday;
        }
        if d in guard {
          var h := MapSource(chosenToday, FromHours, d);
          assert h in chosen;
        }
      }
    } else if engine != [] {
      assert engine[0] in engine;
      assert guard == [DayWindow(dow, "09:00", "17:00")];
    }
  }

  // ---------- offered implies accepted ----------

  function RequestFor(q: Query, s: Slot): Request {
    Create(q.business, q.staff, q.services, q.location, s.startsAt, 0, None, true)
  }

  function ArgsFor(w: World, q: Query, s: Slot): Args
    requires q.services != []
  {
    CreateArgs(w, RequestFor(q, s))
  }

  /** The guard looks at the primary service's buffers, the search at the widest ones. */
  lemma GuardWindowIsNarrower(w: World, q: Query, s: Slot)
    requires ValidWorld(w) && ValidQuery(w, q)
    ensures var a, t := ArgsFor(w, q, s), Taken(Combined(w, q.services), s.startsAt);
      && t.start <= OccupiedBy(w, a).start <= a.startsAt < a.endsAt <= OccupiedBy(w, a).end <= t.end
      && a.startsAt == s.startsAt
  {
    CombinedIsWidest(w, q.services);
    OccupiedContains(w, q.services[0], s.startsAt, AddMinutes(s.startsAt, TotalMinutes(w, q.services)));
  }

  predicate HasFittingWindow(w: World, a: Args) {
    var windows := GuardWindows(w, a.staff, a.business, a.location, DayOfWeek(BookingDay(w, a)));
    exists d :: d in windows && FitsWindow(w, a, d)
  }

  lemma OfferedFitsHours(w: World, rows: Rows, q: Query, s: Slot)
    requires ValidWorld(w) && ValidQuery(w, q) && OfferedSomeDay(w, rows, q, s)
    ensures var a := ArgsFor(w, q, s);
      && LocalDay(a.startsAt, Zone(w, a)) == LocalDay(a.endsAt, Zone(w, a))
      && HasFittingWindow(w, a)
  {
    EngineWindowsAreClocks(w, q.staff, q.business, q.location);
    CombinedIsWidest(w, q.services);
    var a, v, zone := ArgsFor(w, q, s), ViewOf(w, rows, q), SearchZone(w, q);
    var day: int, d :| d in EngineWindows(w, q.staff, q.business, q.location) && OffersOn(v, day, zone, d, s);
    OfferedInsideWindow(v, day, zone, d, s);
    GuardWindowIsNarrower(w, q, s);
    GuardFallsBackExactly(w, q.staff, q.business, q.location, DayOfWeek(day));
    assert d in WindowsOn(EngineWindows(w, q.staff, q.business, q.location), DayOfWeek(day));
    assert Inside(w, a, d);
    InsideFits(w, a, d);
    OnDay(a.endsAt, zone, day);
  }

  /** The guard's occupied window lies in the searched range, so nothing that blocks it
      was left out of the search. */
  predicate InsideSearch(w: World, q: Query, s: Slot)
    requires q.services != []
  {
    var occupied := OccupiedBy(w, ArgsFor(w, q, s));
    RangeStart(q) <= occupied.start && occupied.end <= RangeEnd(q)
  }

  /** Time off and closures that stop the guard also stop the search. */
  lemma ClosedMeansBlocked(w: World, rows: Rows, q: Query, s: Slot)
    requires ValidWorld(w) && ValidQuery(w, q) && q.location.Some? && InsideSearch(w, q, s)
    ensures OnTimeOff(w, ArgsFor(w, q, s)) || OnClosure(w, ArgsFor(w, q, s)) ==>
      BlockedByTimeOff(ViewOf(w, rows, q), s.startsAt)
  {
    var a, v := ArgsFor(w, q, s), ViewOf(w, rows, q);
    var occupied := OccupiedBy(w, a);
    GuardWindowIsNarrower(w, q, s);
    if t :| t in w.timeOffs && t.staff == a.staff && t.startsAt < occupied.end && t.endsAt > occupied.start {
      assert Interval(t.startsAt, t.endsAt) in v.blocks;
    }
    if c :| (c in w.closures && c.business == a.business && c.startsAt < occupied.end && c.endsAt > occupied.start
             && (c.location == None || c.location == a.location)) {
      assert Interval(c.startsAt, c.endsAt) in v.blocks;
    }
  }

  /** Whatever meets the guard's window was fetched by the search and meets its wider one. */
  lemma FetchedAndMeets(w: World, q: Query, s: Slot, r: Row)
    requires ValidWorld(w) && ValidQuery(w, q) && InsideSearch(w, q, s)
    requires Overlap(OccupiedBy(w, ArgsFor(w, q, s)), OccupiedRow(w, r))
    ensures InConflictRange(q, r) && Overlap(Taken(Combined(w, q.services), s.startsAt), OccupiedRow(w, r))
  {
    GuardWindowIsNarrower(w, q, s);
    OccupiedContains(w, r.service, r.startsAt, r.endsAt);
  }

  lemma OfferedHasNoClash(w: World, rows: Rows, q: Query, s: Slot)
    requires ValidWorld(w) && ValidQuery(w, q) && ValidRows(rows) && InsideSearch(w, q, s)
    requires !BlockedByAppointment(ViewOf(w, rows, q), s.startsAt)
    ensures NoClash(w, rows, ArgsFor(w, q, s))
    ensures |Mates(rows, ArgsFor(w, q, s))| < Seats(w, q.services[0])
  {
    var a, v := ArgsFor(w, q, s), ViewOf(w, rows, q);
    GuardWindowIsNarrower(w, q, s);
    var overlapping, classmates := OverlappingRows(v, s.startsAt), ClassmateRows(v, s.startsAt);
    SubsetSize(classmates, overlapping);
    forall id | id in rows && Rival(a, id, rows[id]) && rows[id].staff == a.staff
      && Overlap(OccupiedBy(w, a), OccupiedRow(w, rows[id]))
      ensures SameInstance(a, rows[id])
    {
      FetchedAndMeets(w, q, s, rows[id]);
      assert id in overlapping;
    }
    forall id | id in Mates(rows, a)
      ensures id in classmates
    {
      OccupiedContains(w, rows[id].service, rows[id].startsAt, rows[id].endsAt);
      FetchedAndMeets(w, q, s, rows[id]);
    }
    SubsetSize(Mates(rows, a), classmates);
  }

  /** A busy resource either is the provider's own appointment or blocks the search. */
  lemma ResourceClashMeansBlocked(w: World, rows: Rows, q: Query, s: Slot)
    requires ValidWorld(w) && ValidQuery(w, q) && ValidRows(rows) && InsideSearch(w, q, s)
    requires NoClash(w, rows, ArgsFor(w, q, s))
    ensures NoResourceClash(w, rows, ArgsFor(w, q, s)) || BlockedByTimeOff(ViewOf(w, rows, q), s.startsAt)
  {
    var a, v := ArgsFor(w, q, s), ViewOf(w, rows, q);
    if id :| (id in rows && Rival(a, id, rows[id]) && UsesResource(w, a, rows[id])
              && Overlap(OccupiedBy(w, a), OccupiedRow(w, rows[id])) && !SameInstance(a, rows[id])) {
      FetchedAndMeets(w, q, s, rows[id]);
      assert OccupiedRow(w, rows[id]) in BusyResources(w, rows, q);
      assert OccupiedRow(w, rows[id]) in v.blocks;
    }
  }

  /** Every slot the search returns for a branch, with or without additional services,
      passes the whole in-transaction check on the same store. */
  lemma OfferedIsAccepted(w: World, rows: Rows, q: Query, s: Slot)
    requires ValidWorld(w) && ValidQuery(w, q) && ValidRows(rows)
    requires q.location.Some? && InsideSearch(w, q, s) && s in Offered(w, rows, q)
    ensures AssertBookableWindow(w, rows, ArgsFor(w, q, s)) == Accepted
    ensures ArgsFor(w, q, s).endsAt == s.endsAt
  {
    SearchIsComplete(w, rows, q, s);
    EngineWindowsAreClocks(w, q.staff, q.business, q.location);
    CombinedIsWidest(w, q.services);
    var v, zone := ViewOf(w, rows, q), SearchZone(w, q);
    var day: int, d :| d in EngineWindows(w, q.staff, q.business, q.location) && OffersOn(v, day, zone, d, s);
    OfferedInsideWindow(v, day, zone, d, s);
    OfferedFitsHours(w, rows, q, s);
    ClosedMeansBlocked(w, rows, q, s);
    GuardWindowIsNarrower(w, q, s);
    OfferedHasNoClash(w, rows, q, s);
    ResourceClashMeansBlocked(w, rows, q, s);
    AcceptsExactlyBookable(w, rows, ArgsFor(w, q, s));
  }
}
