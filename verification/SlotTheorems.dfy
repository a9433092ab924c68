/** What the slot search returns: every in-range slot of every local day, once per rule
    that offers it, and nothing else. */
module SlotTheorems {
  import opened Prelude
  import opened Clock
  import opened Calendar
  import opened DayGrid
  import opened Slots

  /** Window d of local day `day` offers s. */
  ghost predicate Offers(v: View, day: int, zone: int, d: DayWindow, s: Slot)
    requires ValidBundle(v.bundle) && IsClock(d.startTime) && IsClock(d.endTime)
  {
    s in WindowSlots(v, FromZoned(day, Minutes(d.startTime), zone), FromZoned(day, Minutes(d.endTime), zone))
  }

  /** A slot and its buffers lie in the window that offers it, on that local day. */
  lemma OfferedInsideWindow(v: View, day: int, zone: int, d: DayWindow, s: Slot)
    requires ValidBundle(v.bundle) && IsClock(d.startTime) && IsClock(d.endTime) && Offers(v, day, zone, d, s)
    ensures s == SlotAt(v.bundle, s.startsAt) && Free(v, s.startsAt)
    ensures FromZoned(day, Minutes(d.startTime), zone) <= Taken(v.bundle, s.startsAt).start <= s.startsAt
    ensures Taken(v.bundle, s.startsAt).end <= FromZoned(day, Minutes(d.endTime), zone)
    ensures LocalDay(s.startsAt, zone) == day
  {
    var windowStart, windowEnd := FromZoned(day, Minutes(d.startTime), zone), FromZoned(day, Minutes(d.endTime), zone);
    SlotsFromBounds(v, AddMinutes(windowStart, v.bundle.bufferBeforeMin), windowEnd, s);
    OnDay(s.startsAt, zone, day);
  }

  // ---------- every slot of every day ----------

  lemma RuleSlotsMember(v: View, q: Query, day: int, zone: int, d: DayWindow, s: Slot)
    requires ValidBundle(v.bundle) && IsClock(d.startTime) && IsClock(d.endTime)
    ensures s in RuleSlots(v, q, day, zone, d) <==> Requested(q, s) && Offers(v, day, zone, d, s)
  {
  }

  lemma RuleListsMembers(v: View, q: Query, day: int, zone: int, on: seq<DayWindow>, s: Slot)
    requires ValidBundle(v.bundle) && AreClocks(on)
    ensures s in Flatten(RuleLists(v, q, day, zone, on)) <==>
      Requested(q, s) && exists d :: d in on && Offers(v, day, zone, d, s)
  {
    var lists := RuleLists(v, q, day, zone, on);
    FlattenMembers(lists, s);
    forall i | 0 <= i < |on|
      ensures s in lists[i] <==> Requested(q, s) && Offers(v, day, zone, on[i], s)
    {
      RuleSlotsMember(v, q, day, zone, on[i], s);
    }
    assert forall i :: 0 <= i < |on| ==> on[i] in on;
    if d :| d in on && Offers(v, day, zone, d, s) && Requested(q, s) {
      var i :| 0 <= i < |on| && on[i] == d;
      assert s in lists[i];
    }
  }

  lemma SlotsOfDayMembers(v: View, q: Query, day: int, zone: int, windows: seq<DayWindow>, s: Slot)
    requires ValidBundle(v.bundle) && AreClocks(windows)
    ensures s in SlotsOfDay(v, q, day, zone, windows) <==>
      Requested(q, s) && exists d :: d in windows && d.dayOfWeek == DayOfWeek(day) && Offers(v, day, zone, d, s)
  {
    RuleListsMembers(v, q, day, zone, WindowsOn(windows, DayOfWeek(day)), s);
  }

  lemma SlotIsOnItsDay(v: View, q: Query, day: int, zone: int, windows: seq<DayWindow>, s: Slot)
    requires ValidBundle(v.bundle) && AreClocks(windows) && s in SlotsOfDay(v, q, day, zone, windows)
    ensures LocalDay(s.startsAt, zone) == day
    ensures FromZoned(day, 0, zone) <= Taken(v.bundle, s.startsAt).start
    ensures Taken(v.bundle, s.startsAt).end <= FromZoned(day + 1, 0, zone)
  {
    SlotsOfDayMembers(v, q, day, zone, windows, s);
    var d :| d in windows && d.dayOfWeek == DayOfWeek(day) && Offers(v, day, zone, d, s);
    OfferedInsideWindow(v, day, zone, d, s);
  }

  lemma OnItsDayOnly(v: View, q: Query, day: int, zone: int, windows: seq<DayWindow>, s: Slot)
    requires ValidBundle(v.bundle) && AreClocks(windows)
    ensures s in SlotsOfDay(v, q, day, zone, windows) ==> LocalDay(s.startsAt, zone) == day
  {
    if s in SlotsOfDay(v, q, day, zone, windows) {
      SlotIsOnItsDay(v, q, day, zone, windows, s);
    }
  }

  lemma InItsOwnListOnly(v: View, q: Query, first: int, days: nat, zone: int, windows: seq<DayWindow>, s: Slot, own: int, i: nat)
    requires ValidBundle(v.bundle) && AreClocks(windows) && own == LocalDay(s.startsAt, zone) && i < days
    ensures s in DayLists(v, q, first, days, zone, windows)[i] ==> first + i == own
    ensures first + i == own ==> DayLists(v, q, first, days, zone, windows)[i] == SlotsOfDay(v, q, own, zone, windows)
  {
    OnItsDayOnly(v, q, first + i, zone, windows, s);
  }

  lemma SlotsOfDaysMembers(v: View, q: Query, first: int, days: nat, zone: int, windows: seq<DayWindow>, s: Slot, own: int)
    requires ValidBundle(v.bundle) && AreClocks(windows) && own == LocalDay(s.startsAt, zone)
    ensures s in SlotsOfDays(v, q, first, days, zone, windows) <==>
      first <= own < first + days && s in SlotsOfDay(v, q, own, zone, windows)
  {
    var lists := DayLists(v, q, first, days, zone, windows);
    FlattenMembers(lists, s);
    forall i | 0 <= i < days
      ensures s in lists[i] ==> first + i == own
    {
      InItsOwnListOnly(v, q, first, days, zone, windows, s, own, i);
    }
    if first <= own < first + days {
      InItsOwnListOnly(v, q, first, days, zone, windows, s, own, own - first);
    }
  }

  /** The cursor visits every local day an in-range slot can fall on. */
  lemma EveryDayInRangeIsVisited(q: Query, zone: int, s: Slot)
    requires q.firstDay <= q.lastDay && Requested(q, s) && s.startsAt <= s.endsAt
    ensures FirstVisited(q, zone) <= LocalDay(s.startsAt, zone) < FirstVisited(q, zone) + VisitedDays(q)
  {
    var before := s.startsAt - (RangeStart(q) - 86_400_000);
    assert 86_400_000 <= before < VisitedDays(q) * 86_400_000 - 86_400_000;
    WithinDays(RangeStart(q) - 86_400_000, before, VisitedDays(q) - 1, zone);
  }

  lemma WithinDays(t: int, delta: int, days: nat, zone: int)
    requires 0 <= delta < days * 86_400_000
    ensures LocalDay(t, zone) <= LocalDay(t + delta, zone) <= LocalDay(t, zone) + days
  {
    CursorDay(t, days, zone);
  }

  /** Some effective window of some local day offers s. */
  ghost predicate OfferedSomeDay(w: World, rows: Rows, q: Query, s: Slot)
    requires ValidWorld(w) && ValidQuery(w, q)
  {
    CombinedIsWidest(w, q.services);
    EngineWindowsAreClocks(w, q.staff, q.business, q.location);
    exists day: int, d :: d in EngineWindows(w, q.staff, q.business, q.location)
      && OffersOn(ViewOf(w, rows, q), day, SearchZone(w, q), d, s)
  }

  ghost predicate OffersOn(v: View, day: int, zone: int, d: DayWindow, s: Slot)
    requires ValidBundle(v.bundle) && IsClock(d.startTime) && IsClock(d.endTime)
  {
    d.dayOfWeek == DayOfWeek(day) && Offers(v, day, zone, d, s)
  }

  /** The search returns exactly the in-range slots of all local days, visited or not. */
  lemma SearchIsComplete(w: World, rows: Rows, q: Query, s: Slot)
    requires ValidWorld(w) && ValidQuery(w, q)
    ensures s in AllSlots(w, rows, q) <==> Requested(q, s) && OfferedSomeDay(w, rows, q, s)
  {
    EngineWindowsAreClocks(w, q.staff, q.business, q.location);
    CombinedIsWidest(w, q.services);
    var v, zone, windows := ViewOf(w, rows, q), SearchZone(w, q), EngineWindows(w, q.staff, q.business, q.location);
    var own := LocalDay(s.startsAt, zone);
    SlotsOfDaysMembers(v, q, FirstVisited(q, zone), VisitedDays(q), zone, windows, s, own);
    SlotsOfDayMembers(v, q, own, zone, windows, s);
    if s in SlotsOfDay(v, q, own, zone, windows) {
      var d :| d in windows && d.dayOfWeek == DayOfWeek(own) && Offers(v, own, zone, d, s);
      assert OffersOn(v, own, zone, d, s);
    }
    if day: int, d :| d in windows && OffersOn(v, day, zone, d, s) && Requested(q, s) {
      OfferedInsideWindow(v, day, zone, d, s);
      EveryDayInRangeIsVisited(q, zone, s);
    }
  }

  // ---------- once per rule ----------

  /** The windows of local day `day` that offer s, by position. */
  ghost function Offerers(v: View, day: int, zone: int, windows: seq<DayWindow>, s: Slot): set<nat>
    requires ValidBundle(v.bundle) && AreClocks(windows)
  {
    set i: nat | i < |windows| && OffersOn(v, day, zone, windows[i], s)
  }

  lemma {:induction false} OfferedOnceByAWindow(v: View, start: int, windowEnd: int, s: Slot)
    requires ValidBundle(v.bundle)
    ensures multiset(SlotsFrom(v, start, windowEnd))[s] <= 1
    decreases windowEnd - start
  {
    if Taken(v.bundle, start).end <= windowEnd {
      var next := start + TotalMs(v.bundle);
      OfferedOnceByAWindow(v, next, windowEnd, s);
      if s in SlotsFrom(v, next, windowEnd) {
        SlotsFromBounds(v, next, windowEnd, s);
      }
    }
  }

  lemma RuleOffersOnce(v: View, q: Query, day: int, zone: int, d: DayWindow, s: Slot)
    requires ValidBundle(v.bundle) && IsClock(d.startTime) && IsClock(d.endTime)
    ensures multiset(RuleSlots(v, q, day, zone, d))[s] <= 1
  {
    var windowStart, windowEnd := FromZoned(day, Minutes(d.startTime), zone), FromZoned(day, Minutes(d.endTime), zone);
    OfferedOnceByAWindow(v, AddMinutes(windowStart, v.bundle.bufferBeforeMin), windowEnd, s);
    FilterCounts(WindowSlots(v, windowStart, windowEnd), (x: Slot) => Requested(q, x), s);
  }

  lemma SlotsOfDayCount(v: View, q: Query, day: int, zone: int, windows: seq<DayWindow>, s: Slot)
    requires ValidBundle(v.bundle) && AreClocks(windows) && Requested(q, s)
    ensures multiset(SlotsOfDay(v, q, day, zone, windows))[s] ==
      |Offerers(v, day, zone, WindowsOn(windows, DayOfWeek(day)), s)|
  {
    var on := WindowsOn(windows, DayOfWeek(day));
    var lists := RuleLists(v, q, day, zone, on);
    forall i | 0 <= i < |on|
      ensures multiset(lists[i])[s] <= 1
      ensures s in lists[i] <==> OffersOn(v, day, zone, on[i], s)
    {
      assert on[i] in on;
      RuleOffersOnce(v, q, day, zone, on[i], s);
      RuleSlotsMember(v, q, day, zone, on[i], s);
    }
    FlattenCounts(lists, s);
    assert ListsWith(lists, s) == Offerers(v, day, zone, on, s);
  }

  lemma {:induction false} OnlyOneListCounts<T>(lists: seq<seq<T>>, x: T, k: nat)
    requires k < |lists| && forall i :: 0 <= i < |lists| && i != k ==> x !in lists[i]
    ensures multiset(Flatten(lists))[x] == multiset(lists[k])[x]
  {
    var rest, last := lists[..|lists| - 1], lists[|lists| - 1];
    if k < |rest| {
      OnlyOneListCounts(rest, x, k);
    } else {
      FlattenMembers(rest, x);
    }
  }

  lemma SlotsOfDaysCount(v: View, q: Query, first: int, days: nat, zone: int, windows: seq<DayWindow>, s: Slot, own: int)
    requires ValidBundle(v.bundle) && AreClocks(windows) && own == LocalDay(s.startsAt, zone)
    requires first <= own < first + days
    ensures multiset(SlotsOfDays(v, q, first, days, zone, windows))[s] ==
      multiset(SlotsOfDay(v, q, own, zone, windows))[s]
  {
    var lists := DayLists(v, q, first, days, zone, windows);
    forall i | 0 <= i < days
      ensures s in lists[i] ==> i == own - first
    {
      InItsOwnListOnly(v, q, first, days, zone, windows, s, own, i);
    }
    InItsOwnListOnly(v, q, first, days, zone, windows, s, own, own - first);
    OnlyOneListCounts(lists, s, own - first);
  }

  /** Each in-range slot is returned once for every window of its own local day that
      offers it: no day is visited twice and none is missed. */
  lemma OncePerRule(w: World, rows: Rows, q: Query, s: Slot, own: int)
    requires ValidWorld(w) && ValidQuery(w, q) && Requested(q, s) && s.startsAt <= s.endsAt
    requires own == LocalDay(s.startsAt, SearchZone(w, q))
    requires AreClocks(EngineWindows(w, q.staff, q.business, q.location)) && ValidBundle(Combined(w, q.services))
    ensures multiset(AllSlots(w, rows, q))[s] ==
      |Offerers(ViewOf(w, rows, q), own, SearchZone(w, q),
                WindowsOn(EngineWindows(w, q.staff, q.business, q.location), DayOfWeek(own)), s)|
  {
    var v, zone, windows := ViewOf(w, rows, q), SearchZone(w, q), EngineWindows(w, q.staff, q.business, q.location);
    EveryDayInRangeIsVisited(q, zone, s);
    SlotsOfDaysCount(v, q, FirstVisited(q, zone), VisitedDays(q), zone, windows, s, own);
    SlotsOfDayCount(v, q, own, zone, windows, s);
  }

  // ---------- pairwise disjoint ----------

  /** No two windows of one weekday meet. */
  predicate DoNotOverlap(d: DayWindow, e: DayWindow)
    requires IsClock(d.startTime) && IsClock(d.endTime) && IsClock(e.startTime) && IsClock(e.endTime)
  {
    Minutes(d.endTime) <= Minutes(e.startTime) || Minutes(e.endTime) <= Minutes(d.startTime)
  }

  ghost predicate Apart(windows: seq<DayWindow>)
    requires AreClocks(windows)
  {
    forall i, j :: 0 <= i < j < |windows| && windows[i].dayOfWeek == windows[j].dayOfWeek ==> DoNotOverlap(windows[i], windows[j])
  }

  lemma {:induction false} WindowsOnStayApart(windows: seq<DayWindow>, dow: int)
    requires AreClocks(windows) && Apart(windows)
    ensures Apart(WindowsOn(windows, dow))
  {
    if windows != [] {
      WindowsOnStayApart(windows[1..], dow);
      var rest := WindowsOn(windows[1..], dow);
      forall j | 0 <= j < |rest| && windows[0].dayOfWeek == dow
        ensures DoNotOverlap(windows[0], rest[j])
      {
        assert rest[j] in rest;
        var k :| 0 <= k < |windows[1..]| && windows[1..][k] == rest[j];
        assert windows[k + 1] == rest[j];
      }
    }
  }

  ghost predicate Meet(b: Bundle, x: Slot, y: Slot) {
    Overlap(Taken(b, x.startsAt), Taken(b, y.startsAt))
  }

  ghost predicate PairwiseDisjoint(b: Bundle, slots: seq<Slot>) {
    forall i, j :: 0 <= i < j < |slots| ==> !Meet(b, slots[i], slots[j])
  }

  lemma DisjointConcat(b: Bundle, xs: seq<Slot>, ys: seq<Slot>)
    requires PairwiseDisjoint(b, xs) && PairwiseDisjoint(b, ys)
    requires forall x, y :: x in xs && y in ys ==> !Meet(b, x, y)
    ensures PairwiseDisjoint(b, xs + ys)
  {
  }

  lemma {:induction false} FilterStaysDisjoint(b: Bundle, slots: seq<Slot>, p: Slot -> bool)
    requires PairwiseDisjoint(b, slots)
    ensures PairwiseDisjoint(b, Filter(slots, p))
  {
    if slots != [] {
      FilterStaysDisjoint(b, slots[1..], p);
      if p(slots[0]) {
        forall y | y in slots[1..]
          ensures !Meet(b, slots[0], y)
        {
          var k :| 0 <= k < |slots[1..]| && slots[1..][k] == y;
          assert slots[k + 1] == y;
        }
        DisjointConcat(b, [slots[0]], Filter(slots[1..], p));
      }
    }
  }

  lemma {:induction false} FlattenStaysDisjoint(b: Bundle, lists: seq<seq<Slot>>)
    requires forall i :: 0 <= i < |lists| ==> PairwiseDisjoint(b, lists[i])
    requires forall i, j, x, y :: 0 <= i < j < |lists| && x in lists[i] && y in lists[j] ==> !Meet(b, x, y)
    ensures PairwiseDisjoint(b, Flatten(lists))
  {
    if lists != [] {
      var rest, last := lists[..|lists| - 1], lists[|lists| - 1];
      FlattenStaysDisjoint(b, rest);
      forall x, y | x in Flatten(rest) && y in last
        ensures !Meet(b, x, y)
      {
        FlattenMembers(rest, x);
      }
      DisjointConcat(b, Flatten(rest), last);
    }
  }

  lemma RuleSlotsDisjoint(v: View, q: Query, day: int, zone: int, d: DayWindow)
    requires ValidBundle(v.bundle) && IsClock(d.startTime) && IsClock(d.endTime)
    ensures PairwiseDisjoint(v.bundle, RuleSlots(v, q, day, zone, d))
  {
    var windowStart, windowEnd := FromZoned(day, Minutes(d.startTime), zone), FromZoned(day, Minutes(d.endTime), zone);
    var start := AddMinutes(windowStart, v.bundle.bufferBeforeMin);
    forall i, j | 0 <= i < j < |SlotsFrom(v, start, windowEnd)|
      ensures !Meet(v.bundle, SlotsFrom(v, start, windowEnd)[i], SlotsFrom(v, start, windowEnd)[j])
    {
      OffersAreDisjoint(v, start, windowEnd, i, j);
    }
    FilterStaysDisjoint(v.bundle, WindowSlots(v, windowStart, windowEnd), (s: Slot) => Requested(q, s));
  }

  lemma SlotsOfDayDisjoint(v: View, q: Query, day: int, zone: int, windows: seq<DayWindow>)
    requires ValidBundle(v.bundle) && AreClocks(windows) && Apart(windows)
    ensures PairwiseDisjoint(v.bundle, SlotsOfDay(v, q, day, zone, windows))
  {
    var on := WindowsOn(windows, DayOfWeek(day));
    var lists := RuleLists(v, q, day, zone, on);
    WindowsOnStayApart(windows, DayOfWeek(day));
    forall i | 0 <= i < |on|
      ensures on[i] in on && PairwiseDisjoint(v.bundle, lists[i])
    {
      RuleSlotsDisjoint(v, q, day, zone, on[i]);
    }
    forall i, j, x, y | 0 <= i < j < |on| && x in lists[i] && y in lists[j]
      ensures !Meet(v.bundle, x, y)
    {
      RuleSlotsMember(v, q, day, zone, on[i], x);
      RuleSlotsMember(v, q, day, zone, on[j], y);
      OfferedInsideWindow(v, day, zone, on[i], x);
      OfferedInsideWindow(v, day, zone, on[j], y);
    }
    FlattenStaysDisjoint(v.bundle, lists);
  }

  lemma SlotsOfDaysDisjoint(v: View, q: Query, first: int, days: nat, zone: int, windows: seq<DayWindow>)
    requires ValidBundle(v.bundle) && AreClocks(windows) && Apart(windows)
    ensures PairwiseDisjoint(v.bundle, SlotsOfDays(v, q, first, days, zone, windows))
  {
    var lists := DayLists(v, q, first, days, zone, windows);
    forall i | 0 <= i < days
      ensures PairwiseDisjoint(v.bundle, lists[i])
    {
      SlotsOfDayDisjoint(v, q, first + i, zone, windows);
    }
    forall i, j, x, y | 0 <= i < j < days && x in lists[i] && y in lists[j]
      ensures !Meet(v.bundle, x, y)
    {
      SlotIsOnItsDay(v, q, first + i, zone, windows, x);
      SlotIsOnItsDay(v, q, first + j, zone, windows, y);
    }
    FlattenStaysDisjoint(v.bundle, lists);
  }

  /** With disjoint windows on every weekday, no two returned slots meet, buffers
      included, over the whole requested range. */
  lemma SearchIsPairwiseDisjoint(w: World, rows: Rows, q: Query)
    requires ValidWorld(w) && ValidQuery(w, q)
    requires AreClocks(EngineWindows(w, q.staff, q.business, q.location))
    requires Apart(EngineWindows(w, q.staff, q.business, q.location))
    ensures PairwiseDisjoint(Combined(w, q.services), AllSlots(w, rows, q))
  {
    CombinedIsWidest(w, q.services);
    SlotsOfDaysDisjoint(ViewOf(w, rows, q), q, FirstVisited(q, SearchZone(w, q)), VisitedDays(q), SearchZone(w, q),
                        EngineWindows(w, q.staff, q.business, q.location));
  }
}
