/** The rows the calendar is computed from: services, appointments, opening hours,
    time off and closures.  Everything except the appointments is fixed while
    bookings run (`World`). */
module Calendar {
  import opened Prelude
  import opened Clock

  type Id = nat

  datatype Status = PENDING | CONFIRMED | COMPLETED | NO_SHOW | CANCELLED {
    /** status IN ('CONFIRMED', 'PENDING') */
    predicate Active() {
      PENDING? || CONFIRMED?
    }
  }

  datatype Service = Service(
    durationMinutes: int,
    bufferBeforeMin: int,
    bufferAfterMin: int,
    capacity: int,
    resource: Option<Id>)

  datatype Row = Row(
    business: Id,
    staff: Id,
    service: Id,
    location: Option<Id>,
    startsAt: int,
    endsAt: int,
    status: Status,
    totalPriceCents: int,
    discountCents: int,
    promo: Option<Id>)

  type Rows = map<Id, Row>

  datatype Interval = Interval(start: int, end: int)

  datatype StaffRule = StaffRule(staff: Id, dayOfWeek: int, startTime: string, endTime: string)
  datatype OpeningHours = OpeningHours(
    business: Id, location: Option<Id>, dayOfWeek: int, startTime: string, endTime: string)
  datatype TimeOff = TimeOff(staff: Id, startsAt: int, endsAt: int)
  datatype Closure = Closure(business: Id, location: Option<Id>, startsAt: int, endsAt: int)

  /** One effective opening window of a day, wherever it came from. */
  datatype DayWindow = DayWindow(dayOfWeek: int, startTime: string, endTime: string)

  datatype World = World(
    services: map<Id, Service>,
    rules: seq<StaffRule>,
    hours: seq<OpeningHours>,
    timeOffs: seq<TimeOff>,
    closures: seq<Closure>,
    businessZone: map<Id, int>,
    branchZone: map<Id, Option<int>>)

  const LOCK_MARGIN_MIN := 480

  /** What the service endpoints accept: positive durations, buffers up to 480 minutes. */
  ghost predicate ValidService(s: Service) {
    && s.durationMinutes >= 1
    && 0 <= s.bufferBeforeMin <= LOCK_MARGIN_MIN
    && 0 <= s.bufferAfterMin <= LOCK_MARGIN_MIN
  }

  ghost predicate ValidWorld(w: World) {
    && (forall k | k in w.services :: ValidService(w.services[k]))
    && (forall r | r in w.rules :: IsClock(r.startTime) && IsClock(r.endTime))
    && (forall h | h in w.hours :: IsClock(h.startTime) && IsClock(h.endTime))
  }

  /** `apt.service?.bufferBeforeMin ?? 0` and its companions. */
  function BufferBefore(w: World, service: Id): int {
    if service in w.services then w.services[service].bufferBeforeMin else 0
  }

  function BufferAfter(w: World, service: Id): int {
    if service in w.services then w.services[service].bufferAfterMin else 0
  }

  function ResourceOf(w: World, service: Id): Option<Id> {
    if service in w.services then w.services[service].resource else None
  }

  /** Math.max(1, service.capacity ?? 1) */
  function Seats(w: World, service: Id): (n: int)
    ensures n >= 1
  {
    if service in w.services && w.services[service].capacity > 1 then w.services[service].capacity else 1
  }

  /** `occupiedWindow`: the appointment with its buffers. */
  function Occupied(w: World, service: Id, startsAt: int, endsAt: int): Interval {
    Interval(
      AddMinutes(startsAt, -BufferBefore(w, service)),
      AddMinutes(endsAt, BufferAfter(w, service)))
  }

  function OccupiedRow(w: World, r: Row): Interval {
    Occupied(w, r.service, r.startsAt, r.endsAt)
  }

  /** `overlaps`: half-open intervals meet. */
  predicate Overlap(a: Interval, b: Interval) {
    a.start < b.end && a.end > b.start
  }

  /** Branch zone, else business zone, else UTC. */
  function ZoneOf(w: World, business: Id, location: Option<Id>): int {
    match location
    case Some(l) =>
      if l in w.branchZone && w.branchZone[l].Some? then w.branchZone[l].value else BusinessZone(w, business)
    case None => BusinessZone(w, business)
  }

  function BusinessZone(w: World, business: Id): int {
    if business in w.businessZone then w.businessZone[business] else 0
  }

  lemma OccupiedContains(w: World, service: Id, startsAt: int, endsAt: int)
    requires ValidWorld(w)
    ensures Occupied(w, service, startsAt, endsAt).start <= startsAt
    ensures Occupied(w, service, startsAt, endsAt).end >= endsAt
    ensures Occupied(w, service, startsAt, endsAt).start >= AddMinutes(startsAt, -LOCK_MARGIN_MIN)
    ensures Occupied(w, service, startsAt, endsAt).end <= AddMinutes(endsAt, LOCK_MARGIN_MIN)
  {
  }
}
