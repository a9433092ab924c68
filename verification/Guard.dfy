/** `assertBookableWindow`: the check every booking transaction makes before it
    writes, and what its answer means. */
module Guard {
  import opened Prelude
  import opened Clock
  import opened Calendar

  datatype Args = Args(
    business: Id,
    staff: Id,
    service: Id,
    resources: set<Id>,
    startsAt: int,
    endsAt: int,
    exclude: Option<Id>,
    location: Option<Id>)

  datatype Verdict =
    | Accepted
    | NotOneDay
    | OutsideHours
    | DuringTimeOff
    | DuringClosure
    | SlotTaken
    | ClassFull
    | ResourceTaken

  function OccupiedBy(w: World, a: Args): Interval {
    Occupied(w, a.service, a.startsAt, a.endsAt)
  }

  // ---------- the calendar part: hours, time off, closures ----------

  function Zone(w: World, a: Args): int {
    ZoneOf(w, a.business, a.location)
  }

  function BookingDay(w: World, a: Args): int {
    LocalDay(a.startsAt, Zone(w, a))
  }

  /** The rules of the weekday: the provider's own, else the branch's hours, else
      the business-wide hours, else 09:00-17:00. */
  function GuardWindows(w: World, staff: Id, business: Id, location: Option<Id>, dow: int): seq<DayWindow> {
    var own := Filter(w.rules, (r: StaffRule) => r.staff == staff && r.dayOfWeek == dow);
    var hours := Filter(w.hours, (h: OpeningHours) =>
      h.business == business && h.dayOfWeek == dow && (h.location == location || h.location == None));
    var branch := BranchHours(hours, location);
    if own != [] then Map(own, FromRule)
    else if branch != [] then Map(branch, FromHours)
    else [DayWindow(dow, "09:00", "17:00")]
  }

  function FromRule(r: StaffRule): DayWindow {
    DayWindow(r.dayOfWeek, r.startTime, r.endTime)
  }

  function FromHours(h: OpeningHours): DayWindow {
    DayWindow(h.dayOfWeek, h.startTime, h.endTime)
  }

  /** A branch that has hours of its own uses only those. */
  function BranchHours(hours: seq<OpeningHours>, location: Option<Id>): seq<OpeningHours> {
    if location.Some? && exists h :: h in hours && h.location == location
    then Filter(hours, (h: OpeningHours) => h.location == location)
    else Filter(hours, (h: OpeningHours) => h.location == None)
  }

  /** The comparison the guard makes: 'HH:mm' strings only, no dates. */
  predicate FitsWindow(w: World, a: Args, d: DayWindow) {
    var occupied := OccupiedBy(w, a);
    && StringAtMost(d.startTime, HHmmOf(occupied.start, Zone(w, a)))
    && StringAtMost(HHmmOf(occupied.end, Zone(w, a)), d.endTime)
  }

  function HHmmOf(t: int, zone: int): string {
    LocalSplit(t, zone);
    HHmm(MinuteOfDay(t, zone))
  }

  predicate OnTimeOff(w: World, a: Args) {
    var occupied := OccupiedBy(w, a);
    exists t :: t in w.timeOffs && t.staff == a.staff && t.startsAt < occupied.end && t.endsAt > occupied.start
  }

  predicate OnClosure(w: World, a: Args) {
    var occupied := OccupiedBy(w, a);
    exists c :: c in w.closures && c.business == a.business && c.startsAt < occupied.end && c.endsAt > occupied.start
      && (a.location == None || c.location == None || c.location == a.location)
  }

  function CalendarVerdict(w: World, a: Args): Verdict {
    var zone := Zone(w, a);
    var windows := GuardWindows(w, a.staff, a.business, a.location, DayOfWeek(BookingDay(w, a)));
    if LocalDay(a.startsAt, zone) != LocalDay(a.endsAt, zone) then NotOneDay
    else if !exists d :: d in windows && FitsWindow(w, a, d) then OutsideHours
    else if OnTimeOff(w, a) then DuringTimeOff
    else if OnClosure(w, a) then DuringClosure
    else Accepted
  }

  // ---------- the appointment part ----------

  predicate InLockWindow(w: World, a: Args, r: Row) {
    var occupied := OccupiedBy(w, a);
    && r.startsAt < AddMinutes(occupied.end, LOCK_MARGIN_MIN)
    && r.endsAt > AddMinutes(occupied.start, -LOCK_MARGIN_MIN)
  }

  /** An active appointment of the business, other than the one being moved. */
  predicate Rival(a: Args, id: Id, r: Row) {
    r.business == a.business && r.status.Active() && a.exclude != Some(id)
  }

  predicate SameInstance(a: Args, r: Row) {
    r.service == a.service && r.startsAt == a.startsAt
  }

  predicate UsesResource(w: World, a: Args, r: Row) {
    var resource := ResourceOf(w, r.service);
    resource.Some? && resource.value in a.resources
  }

  /** The rows the two windowed queries select. */
  predicate StaffHit(w: World, a: Args, id: Id, r: Row) {
    Rival(a, id, r) && r.staff == a.staff && InLockWindow(w, a, r)
  }

  predicate ResourceHit(w: World, a: Args, id: Id, r: Row) {
    Rival(a, id, r) && UsesResource(w, a, r) && InLockWindow(w, a, r) && !SameInstance(a, r)
  }

  predicate Touches(w: World, a: Args, id: Id, r: Row) {
    StaffHit(w, a, id, r) || ResourceHit(w, a, id, r)
  }

  function StaffNearby(w: World, rows: Rows, a: Args): set<Id> {
    set id | id in rows && StaffHit(w, a, id, rows[id])
  }

  function ResourceNearby(w: World, rows: Rows, a: Args): set<Id> {
    if a.resources == {} then {} else set id | id in rows && ResourceHit(w, a, id, rows[id])
  }

  function Overlapping(w: World, rows: Rows, a: Args, ids: set<Id>): set<Id> {
    set id | id in ids && id in rows && Overlap(OccupiedBy(w, a), OccupiedRow(w, rows[id]))
  }

  function SameInstances(rows: Rows, a: Args, ids: set<Id>): set<Id> {
    set id | id in ids && id in rows && SameInstance(a, rows[id])
  }

  /** The decision, given the two query results. */
  function Decide(w: World, rows: Rows, a: Args, staffIds: set<Id>, resourceIds: set<Id>): Verdict {
    var overlapping := Overlapping(w, rows, a, staffIds);
    var sameInstance := SameInstances(rows, a, overlapping);
    if |overlapping| > |sameInstance| then SlotTaken
    else if |sameInstance| >= Seats(w, a.service) then ClassFull
    else if Overlapping(w, rows, a, resourceIds) != {} then ResourceTaken
    else Accepted
  }

  function RowsVerdict(w: World, rows: Rows, a: Args): Verdict {
    Decide(w, rows, a, StaffNearby(w, rows, a), ResourceNearby(w, rows, a))
  }

  /** `assertBookableWindow` as a whole. */
  function AssertBookableWindow(w: World, rows: Rows, a: Args): Verdict {
    var calendar := CalendarVerdict(w, a);
    if calendar != Accepted then calendar else RowsVerdict(w, rows, a)
  }

  // ---------- what the calendar part means ----------

  /** The occupied window lies in one opening window of the booking's own day. */
  predicate Inside(w: World, a: Args, d: DayWindow)
    requires IsClock(d.startTime) && IsClock(d.endTime)
  {
    var zone, day, occupied := Zone(w, a), BookingDay(w, a), OccupiedBy(w, a);
    && FromZoned(day, Minutes(d.startTime), zone) <= occupied.start
    && occupied.end <= FromZoned(day, Minutes(d.endTime), zone)
  }

  /** What a caller can check beforehand: the buffers stay on the booking's local day
      and the occupied window ends on a whole local minute. */
  predicate WithinOneDay(w: World, a: Args) {
    var zone, occupied := Zone(w, a), OccupiedBy(w, a);
    && LocalDay(occupied.start, zone) == BookingDay(w, a)
    && LocalDay(occupied.end, zone) == BookingDay(w, a)
  }

  predicate WholeMinuteEnd(w: World, a: Args) {
    TimeOfDay(OccupiedBy(w, a).end, Zone(w, a)) % MINUTE_MS == 0
  }

  lemma GuardWindowsAreClocks(w: World, staff: Id, business: Id, location: Option<Id>, dow: int)
    requires ValidWorld(w)
    ensures forall d :: d in GuardWindows(w, staff, business, location, dow) ==>
      IsClock(d.startTime) && IsClock(d.endTime) && d.dayOfWeek == dow
  {
    var windows := GuardWindows(w, staff, business, location, dow);
    forall d | d in windows
      ensures IsClock(d.startTime) && IsClock(d.endTime) && d.dayOfWeek == dow
    {
      var own := Filter(w.rules, (r: StaffRule) => r.staff == staff && r.dayOfWeek == dow);
      var hours := Filter(w.hours, (h: OpeningHours) =>
        h.business == business && h.dayOfWeek == dow && (h.location == location || h.location == None));
      if own != [] {
        var r := MapSource(own, FromRule, d);
      } else if BranchHours(hours, location) != [] {
        var h := MapSource(BranchHours(hours, location), FromHours, d);
        assert h in hours;
      }
    }
  }

  /** The string comparison contains the occupied window in the opening window exactly
      when the buffers do not cross midnight and no seconds are cut off its end. */
  lemma StringFitIsContainment(w: World, a: Args, d: DayWindow)
    requires ValidWorld(w) && a.startsAt <= a.endsAt
    requires IsClock(d.startTime) && IsClock(d.endTime) && FitsWindow(w, a, d)
    ensures Inside(w, a, d) <==>
      && WithinOneDay(w, a)
      && (WholeMinuteEnd(w, a) || HHmmOf(OccupiedBy(w, a).end, Zone(w, a)) != d.endTime)
  {
    var zone, day, occupied := Zone(w, a), BookingDay(w, a), OccupiedBy(w, a);
    ClockOrder(d.startTime, HHmmOf(occupied.start, zone));
    ClockOrder(HHmmOf(occupied.end, zone), d.endTime);
    SameMinutesSameClock(HHmmOf(occupied.end, zone), d.endTime);
    StartsNoEarlier(occupied.start, zone, day, Minutes(d.startTime));
    EndsNoLater(occupied.end, zone, day, Minutes(d.endTime));
  }

  lemma StartsNoEarlier(t: int, zone: int, day: int, minute: nat)
    requires minute <= MinuteOfDay(t, zone)
    ensures FromZoned(day, minute, zone) <= t <==> day <= LocalDay(t, zone)
  {
    LocalSplit(t, zone);
  }

  lemma EndsNoLater(t: int, zone: int, day: int, minute: nat)
    requires MinuteOfDay(t, zone) <= minute < MINUTES_IN_DAY
    ensures t <= FromZoned(day, minute, zone) <==>
      || LocalDay(t, zone) < day
      || (LocalDay(t, zone) == day && (TimeOfDay(t, zone) % MINUTE_MS == 0 || MinuteOfDay(t, zone) != minute))
  {
    LocalSplit(t, zone);
  }

  lemma SameMinutesSameClock(a: string, b: string)
    requires IsClock(a) && IsClock(b)
    ensures a == b <==> Minutes(a) == Minutes(b)
  {
    if Minutes(a) == Minutes(b) {
      assert ValueOf(a[0]) == ValueOf(b[0]) && ValueOf(a[1]) == ValueOf(b[1]);
      assert ValueOf(a[3]) == ValueOf(b[3]) && ValueOf(a[4]) == ValueOf(b[4]);
      assert a == [a[0], a[1], a[2], a[3], a[4]] == b;
    }
  }

  lemma FitsInMinutes(w: World, a: Args, d: DayWindow)
    requires IsClock(d.startTime) && IsClock(d.endTime)
    ensures FitsWindow(w, a, d) <==>
      && Minutes(d.startTime) <= MinuteOfDay(OccupiedBy(w, a).start, Zone(w, a))
      && MinuteOfDay(OccupiedBy(w, a).end, Zone(w, a)) <= Minutes(d.endTime)
  {
    var zone, occupied := Zone(w, a), OccupiedBy(w, a);
    ClockOrder(d.startTime, HHmmOf(occupied.start, zone));
    ClockOrder(HHmmOf(occupied.end, zone), d.endTime);
  }

  lemma InsideFits(w: World, a: Args, d: DayWindow)
    requires ValidWorld(w) && a.startsAt <= a.endsAt
    requires IsClock(d.startTime) && IsClock(d.endTime) && Inside(w, a, d)
    ensures FitsWindow(w, a, d) && WithinOneDay(w, a)
  {
    var zone, day, occupied := Zone(w, a), BookingDay(w, a), OccupiedBy(w, a);
    OccupiedContains(w, a.service, a.startsAt, a.endsAt);
    BetweenMinutes(occupied.start, zone, day, Minutes(d.startTime), Minutes(d.endTime));
    BetweenMinutes(occupied.end, zone, day, Minutes(d.startTime), Minutes(d.endTime));
    FitsInMinutes(w, a, d);
  }

  lemma BetweenMinutes(t: int, zone: int, day: int, first: nat, last: nat)
    requires first < MINUTES_IN_DAY && last < MINUTES_IN_DAY
    requires FromZoned(day, first, zone) <= t <= FromZoned(day, last, zone)
    ensures LocalDay(t, zone) == day && first <= MinuteOfDay(t, zone) <= last
  {
    OnDay(t, zone, day);
  }

  /** Some effective window of the booking's own day contains the occupied window. */
  ghost predicate Open(w: World, a: Args) {
    exists d :: d in GuardWindows(w, a.staff, a.business, a.location, DayOfWeek(BookingDay(w, a)))
      && IsClock(d.startTime) && IsClock(d.endTime) && Inside(w, a, d)
  }

  /** For a booking whose buffers stay on its day and that ends on a whole minute, the
      calendar part accepts exactly when the occupied window lies wholly inside one
      effective opening window and meets no time off and no applicable closure. */
  lemma CalendarAcceptsExactly(w: World, a: Args)
    requires ValidWorld(w) && a.startsAt <= a.endsAt
    requires WithinOneDay(w, a) && WholeMinuteEnd(w, a)
    ensures CalendarVerdict(w, a) == Accepted <==> Open(w, a) && !OnTimeOff(w, a) && !OnClosure(w, a)
  {
    var zone := Zone(w, a);
    var windows := GuardWindows(w, a.staff, a.business, a.location, DayOfWeek(BookingDay(w, a)));
    GuardWindowsAreClocks(w, a.staff, a.business, a.location, DayOfWeek(BookingDay(w, a)));
    forall d | d in windows
      ensures FitsWindow(w, a, d) <==> Inside(w, a, d)
    {
      if Inside(w, a, d) {
        InsideFits(w, a, d);
      } else if FitsWindow(w, a, d) {
        StringFitIsContainment(w, a, d);
      }
    }
    assert LocalDay(a.endsAt, zone) == LocalDay(a.startsAt, zone);
  }

  /** A provider with one service, open on Thursdays (1 January 1970 was one). */
  function OpenOnThursday(bufferBefore: int): World {
    World(map[0 := Service(30, bufferBefore, 0, 1, None)], [StaffRule(0, 4, "00:00", "23:59")], [], [], [], map[], map[])
  }

  function HalfHourAt(startsAt: int): Args {
    Args(0, 0, 0, {}, startsAt, AddMinutes(startsAt, 30), None, Some(0))
  }

  lemma ThursdayWindow(bufferBefore: int)
    requires 0 <= bufferBefore <= LOCK_MARGIN_MIN
    ensures ValidWorld(OpenOnThursday(bufferBefore))
    ensures GuardWindows(OpenOnThursday(bufferBefore), 0, 0, Some(0), 4) == [DayWindow(4, "00:00", "23:59")]
  {
    var w := OpenOnThursday(bufferBefore);
    var own := Filter(w.rules, (r: StaffRule) => r.staff == 0 && r.dayOfWeek == 4);
    assert w.rules[1..] == [];
    assert own == w.rules;
  }

  /** What the guard does with a half hour on a Thursday: only the clock times of the
      occupied window matter, and every clock time fits. */
  lemma AnyThursdayAccepts(bufferBefore: int, day: int, startsAt: int)
    requires 0 <= bufferBefore <= 60 && DayOfWeek(day) == 4
    requires day * DAY_MS <= startsAt < (day + 1) * DAY_MS - 30 * MINUTE_MS
    ensures var w, a := OpenOnThursday(bufferBefore), HalfHourAt(startsAt);
      CalendarVerdict(w, a) == Accepted && BookingDay(w, a) == day
  {
    var w, a, d := OpenOnThursday(bufferBefore), HalfHourAt(startsAt), DayWindow(4, "00:00", "23:59");
    ThursdayWindow(bufferBefore);
    OnDay(startsAt, 0, day);
    OnDay(a.endsAt, 0, day);
    assert BookingDay(w, a) == day;
    assert d in GuardWindows(w, 0, 0, Some(0), DayOfWeek(BookingDay(w, a)));
    LocalSplit(OccupiedBy(w, a).start, 0);
    LocalSplit(OccupiedBy(w, a).end, 0);
    FitsInMinutes(w, a, d);
  }

  lemma ThursdayAccepts(bufferBefore: int, startsAt: int)
    requires 0 <= bufferBefore <= 60 && 0 <= startsAt < DAY_MS - 30 * MINUTE_MS
    ensures var w, a := OpenOnThursday(bufferBefore), HalfHourAt(startsAt);
      CalendarVerdict(w, a) == Accepted && BookingDay(w, a) == 0
  {
    AnyThursdayAccepts(bufferBefore, 0, startsAt);
  }

  /** Buffers that cross midnight are accepted although the occupied window starts the
      day before: 00:30 with an hour of preparation, on a day that opens at 00:00. */
  lemma MidnightBufferIsAccepted()
    ensures var w, a := OpenOnThursday(60), HalfHourAt(1_800_000);
      ValidWorld(w) && CalendarVerdict(w, a) == Accepted && !WithinOneDay(w, a) && !Open(w, a)
  {
    var w, a := OpenOnThursday(60), HalfHourAt(1_800_000);
    ThursdayAccepts(60, 1_800_000);
    ThursdayWindow(60);
    assert OccupiedBy(w, a).start == -1_800_000;
    assert !Inside(w, a, DayWindow(4, "00:00", "23:59"));
  }

  /** Seconds are cut off before comparing: 23:29:30 to 23:59:30 is accepted although
      closing time is 23:59. */
  lemma TrailingSecondsAreAccepted()
    ensures var w, a := OpenOnThursday(0), HalfHourAt(84_570_000);
      ValidWorld(w) && CalendarVerdict(w, a) == Accepted && !WholeMinuteEnd(w, a) && !Open(w, a)
  {
    var w, a := OpenOnThursday(0), HalfHourAt(84_570_000);
    ThursdayAccepts(0, 84_570_000);
    ThursdayWindow(0);
    assert OccupiedBy(w, a).end == 86_370_000;
    assert !Inside(w, a, DayWindow(4, "00:00", "23:59"));
  }

  // ---------- what the appointment part means ----------

  ghost predicate ValidRows(rows: Rows) {
    forall id | id in rows :: rows[id].startsAt < rows[id].endsAt
  }

  /** No windows, no counting of overlaps: every other active appointment of the
      provider that meets the occupied window is a seat of the same class instance. */
  ghost predicate NoClash(w: World, rows: Rows, a: Args) {
    forall id | id in rows && Rival(a, id, rows[id]) && rows[id].staff == a.staff
      && Overlap(OccupiedBy(w, a), OccupiedRow(w, rows[id])) :: SameInstance(a, rows[id])
  }

  function Mates(rows: Rows, a: Args): set<Id> {
    set id | id in rows && Rival(a, id, rows[id]) && rows[id].staff == a.staff && SameInstance(a, rows[id])
  }

  ghost predicate NoResourceClash(w: World, rows: Rows, a: Args) {
    forall id | id in rows && Rival(a, id, rows[id]) && UsesResource(w, a, rows[id])
      && Overlap(OccupiedBy(w, a), OccupiedRow(w, rows[id])) :: SameInstance(a, rows[id])
  }

  /** The reference definition of a free slot. */
  ghost predicate Bookable(w: World, rows: Rows, a: Args) {
    && NoClash(w, rows, a)
    && |Mates(rows, a)| < Seats(w, a.service)
    && NoResourceClash(w, rows, a)
  }

  /** The same decision over all of the provider's appointments, however far away. */
  function FullScanVerdict(w: World, rows: Rows, a: Args): Verdict {
    var staffIds := set id | id in rows && Rival(a, id, rows[id]) && rows[id].staff == a.staff;
    var resourceIds := if a.resources == {} then {} else
      set id | id in rows && Rival(a, id, rows[id]) && UsesResource(w, a, rows[id]) && !SameInstance(a, rows[id]);
    Decide(w, rows, a, staffIds, resourceIds)
  }

  /** A row outside the lock window cannot meet the occupied window. */
  lemma FarRowsDoNotOverlap(w: World, a: Args, r: Row)
    requires ValidWorld(w)
    requires Overlap(OccupiedBy(w, a), OccupiedRow(w, r))
    ensures InLockWindow(w, a, r)
  {
    OccupiedContains(w, r.service, r.startsAt, r.endsAt);
  }

  /** Locality: the query limited to 480 minutes around the occupied window gives the
      same verdict, error by error, as a scan of every appointment. */
  lemma WindowedQueryIsExact(w: World, rows: Rows, a: Args)
    requires ValidWorld(w)
    ensures RowsVerdict(w, rows, a) == FullScanVerdict(w, rows, a)
  {
    forall id | id in rows && Overlap(OccupiedBy(w, a), OccupiedRow(w, rows[id]))
      ensures InLockWindow(w, a, rows[id])
    {
      FarRowsDoNotOverlap(w, a, rows[id]);
    }
    var staffIds := set id | id in rows && Rival(a, id, rows[id]) && rows[id].staff == a.staff;
    assert Overlapping(w, rows, a, StaffNearby(w, rows, a)) == Overlapping(w, rows, a, staffIds);
    var resourceIds := if a.resources == {} then {} else
      set id | id in rows && Rival(a, id, rows[id]) && UsesResource(w, a, rows[id]) && !SameInstance(a, rows[id]);
    assert Overlapping(w, rows, a, ResourceNearby(w, rows, a)) == Overlapping(w, rows, a, resourceIds);
  }

  /** The guard accepts exactly the free slots of the reference definition, and each
      refusal names its reason, in this order. */
  lemma AcceptsExactlyBookable(w: World, rows: Rows, a: Args)
    requires ValidWorld(w) && ValidRows(rows) && a.startsAt < a.endsAt
    ensures RowsVerdict(w, rows, a) == Accepted <==> Bookable(w, rows, a)
    ensures RowsVerdict(w, rows, a) == SlotTaken <==> !NoClash(w, rows, a)
    ensures RowsVerdict(w, rows, a) == ClassFull <==>
      NoClash(w, rows, a) && |Mates(rows, a)| >= Seats(w, a.service)
    ensures RowsVerdict(w, rows, a) == ResourceTaken <==>
      NoClash(w, rows, a) && |Mates(rows, a)| < Seats(w, a.service) && !NoResourceClash(w, rows, a)
  {
    WindowedQueryIsExact(w, rows, a);
    var staffIds := set id | id in rows && Rival(a, id, rows[id]) && rows[id].staff == a.staff;
    var overlapping := Overlapping(w, rows, a, staffIds);
    var sameInstance := SameInstances(rows, a, overlapping);
    SubsetSize(sameInstance, overlapping);
    forall id | id in Mates(rows, a)
      ensures id in overlapping
    {
      OccupiedContains(w, a.service, a.startsAt, a.endsAt);
      OccupiedContains(w, rows[id].service, rows[id].startsAt, rows[id].endsAt);
    }
    assert sameInstance == Mates(rows, a);
    var resourceIds := if a.resources == {} then {} else
      set id | id in rows && Rival(a, id, rows[id]) && UsesResource(w, a, rows[id]) && !SameInstance(a, rows[id]);
    var busy := Overlapping(w, rows, a, resourceIds);
    if NoResourceClash(w, rows, a) {
      assert busy == {};
    } else {
      var id :| id in rows && Rival(a, id, rows[id]) && UsesResource(w, a, rows[id])
        && Overlap(OccupiedBy(w, a), OccupiedRow(w, rows[id])) && !SameInstance(a, rows[id]);
      assert id in busy;
    }
    if NoClash(w, rows, a) {
      assert sameInstance == overlapping;
    } else {
      var id :| id in rows && Rival(a, id, rows[id]) && rows[id].staff == a.staff
        && Overlap(OccupiedBy(w, a), OccupiedRow(w, rows[id])) && !SameInstance(a, rows[id]);
      assert id in overlapping && id !in sameInstance;
    }
  }
}
