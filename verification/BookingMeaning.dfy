/** What a booking transaction decides and writes, from the request and the stored fields
    alone, and which writes make it start over. */
module BookingMeaning {
  import opened Prelude
  import opened Calendar
  import opened Guard
  import opened GuardMeaning
  import opened Booking
  import opened Protocol
  import Promo

  /** The resources that these services need. */
  ghost predicate Needs(w: World, services: seq<Id>, resources: set<Id>) {
    forall x :: x in resources <==> exists s :: s in services && s in w.services && w.services[s].resource == Some(x)
  }

  /** What the guard is asked for a new booking: the first service's buffers, every
      service's resource, and all the services' minutes. */
  ghost predicate AsksForNew(w: World, q: Request, a: Args)
    requires q.Create? && q.services != []
  {
    && a.business == q.business && a.staff == q.staff && a.service == q.services[0] && a.location == q.location
    && a.startsAt == q.startsAt && a.endsAt == q.startsAt + 60_000 * TotalMinutes(w, q.services)
    && a.exclude == None && Needs(w, q.services, a.resources)
  }

  /** Minutes of a moved appointment: those it had, and after a reschedule no fewer than
      its service takes now. */
  function MovedMinutes(w: World, q: Request, service: Id): int
    requires !q.Create?
  {
    if q.Reschedule? && service in w.services && w.services[service].durationMinutes > q.readMinutes
    then w.services[service].durationMinutes else q.readMinutes
  }

  /** What it is asked for a moved one: the stored fields, the new times, and itself not
      in the way. */
  ghost predicate AsksToMove(w: World, q: Request, r: Row, a: Args)
    requires !q.Create?
  {
    && a.business == r.business && a.staff == r.staff && a.service == r.service && a.location == r.location
    && a.startsAt == q.startsAt && a.endsAt == q.startsAt + 60_000 * MovedMinutes(w, q, r.service)
    && a.exclude == Some(q.id) && Needs(w, [r.service], a.resources)
  }

  /** The price of a new booking: the discount of a code that may be used, else none. */
  ghost predicate IsPriced(c: Config, q: Request, row: Row)
    requires q.Create?
  {
    && row.promo == q.promo && row.totalPriceCents == q.subtotalCents - row.discountCents
    && (q.promo == None ==> row.discountCents == 0)
    && (q.promo.Some? ==> q.promo.value in c.promos && Promo.IsDiscount(c.promos[q.promo.value], q.subtotalCents, row.discountCents))
  }

  ghost predicate IsNewRow(c: Config, q: Request, a: Args, row: Row)
    requires q.Create?
  {
    && row.business == a.business && row.staff == a.staff && row.service == a.service && row.location == a.location
    && row.startsAt == a.startsAt && row.endsAt == a.endsAt
    && row.status == (if q.confirmed then CONFIRMED else PENDING)
    && IsPriced(c, q, row)
  }

  /** Moving changes the times, and a client's reschedule has to be confirmed again. */
  ghost predicate IsMovedRow(q: Request, a: Args, r: Row, row: Row)
    requires !q.Create?
  {
    && row.startsAt == a.startsAt && row.endsAt == a.endsAt
    && row.status == (if q.Reschedule? && q.byClient then PENDING else r.status)
    && row.business == r.business && row.staff == r.staff && row.service == r.service && row.location == r.location
    && row.totalPriceCents == r.totalPriceCents && row.discountCents == r.discountCents && row.promo == r.promo
  }

  /** Why the code stops the booking, if it does. */
  ghost function CodeProblem(c: Config, q: Request, db: Db, now: int): Option<Promo.Problem>
    requires q.Create?
  {
    if q.promo == None then None
    else if q.promo.value !in c.promos || q.promo.value !in db.usage then Some(Promo.InvalidCode)
    else
      var code, used := c.promos[q.promo.value], db.usage[q.promo.value];
      if code.business != q.business || !code.active then Some(Promo.InvalidCode)
      else if code.expiresAt.Some? && now > code.expiresAt.value then Some(Promo.ExpiredCode)
      else if code.maxUsages.Some? && code.maxUsages.value <= used then Some(Promo.UsedUp)
      else None
  }

  lemma NeedsAre(w: World, services: seq<Id>)
    ensures Needs(w, services, ResourceIds(w, services))
  {
    forall x
      ensures x in ResourceIds(w, services) <==> exists s :: s in services && s in w.services && w.services[s].resource == Some(x)
    {
      if s :| s in services && s in w.services && w.services[s].resource == Some(x) {
        assert ResourceOf(w, s) == Some(x);
      }
    }
  }

  lemma MinutesAre(w: World, q: Request, service: Id)
    requires !q.Create? && ValidWorld(w) && ValidRequest(w, q)
    ensures (if q.Reschedule? then Max(q.readMinutes, DurationOf(w, service)) else q.readMinutes) == MovedMinutes(w, q, service)
  {
  }

  /** The discount of a usable code, or the reason it stops the booking. */
  lemma CodeIsApplied(c: Config, q: Request, db: Db, now: int)
    requires ValidConfig(c) && q.Create? && ValidRequest(c.world, q)
    ensures match CodeProblem(c, q, db, now)
      case Some(e) => DiscountFor(c, q, db, now) == Failure(e)
      case None => (
        && DiscountFor(c, q, db, now).Success? && 0 <= DiscountFor(c, q, db, now).value <= q.subtotalCents
        && (q.promo == None ==> DiscountFor(c, q, db, now).value == 0)
        && (q.promo.Some? ==> Promo.IsDiscount(c.promos[q.promo.value], q.subtotalCents, DiscountFor(c, q, db, now).value)))
  {
    if q.promo.Some? && q.promo.value in c.promos && q.promo.value in db.usage {
      var code, used := c.promos[q.promo.value], db.usage[q.promo.value];
      Promo.RefusedExactly(code, q.business, used, now, q.subtotalCents);
      Promo.DiscountIs(code, q.subtotalCents, Promo.BookingDiscount(code, q.subtotalCents));
      Promo.PreviewAgreesWithBooking(code, q.business, used, now, q.subtotalCents);
    }
  }

  /** A new booking is stored exactly if its code may be used and the guard accepts it; the
      refusal is the code's, or else the guard's. */
  lemma CreateIsReference(c: Config, q: Request, db: Db, now: int, a: Args)
    requires ValidConfig(c) && ValidRows(db.rows) && q.Create? && ValidRequest(c.world, q) && AsksForNew(c.world, q, a)
    ensures match CodeProblem(c, q, db, now)
      case Some(e) => Attempt(c, q, db, now) == Failure(PromoRefused(e))
      case None =>
        var verdict, d := ReferenceVerdict(c.world, db.rows, a), Attempt(c, q, db, now);
        if verdict != Accepted then d == Failure(Guarded(verdict))
        else d.Success? && d.value.target == None && d.value.args == a && IsNewRow(c, q, a, d.value.row)
  {
    NeedsAre(c.world, q.services);
    assert a.resources == ResourceIds(c.world, q.services);
    assert a == CreateArgs(c.world, q);
    TotalMinutesPositive(c.world, q.services);
    CodeIsApplied(c, q, db, now);
    GuardIsReference(c.world, db.rows, a);
  }

  /** An appointment is moved exactly if it exists and the guard accepts its new times. */
  lemma MoveIsReference(c: Config, q: Request, db: Db, now: int, a: Args)
    requires ValidConfig(c) && ValidRows(db.rows) && !q.Create? && ValidRequest(c.world, q)
    requires q.id in db.rows ==> AsksToMove(c.world, q, db.rows[q.id], a)
    ensures var verdict, d := ReferenceVerdict(c.world, db.rows, a), Attempt(c, q, db, now);
      if q.id !in db.rows then d == Failure(NoSuchAppointment)
      else if verdict != Accepted then d == Failure(Guarded(verdict))
      else d.Success? && d.value.target == Some(q.id) && d.value.args == a && IsMovedRow(q, a, db.rows[q.id], d.value.row)
  {
    if q.id in db.rows {
      var r := db.rows[q.id];
      NeedsAre(c.world, [r.service]);
      assert a.resources == ResourceIds(c.world, [r.service]);
      MinutesAre(c.world, q, r.service);
      assert a == MoveArgs(c.world, q.id, r, q.startsAt, MovedMinutes(c.world, q, r.service));
      GuardIsReference(c.world, db.rows, a);
    }
  }

  // ---------- what makes a transaction start over ----------

  /** The guard's queries select this row: an active appointment of the business, not the
      one being moved, that reaches to within eight hours of the blocked interval, with the
      same provider, or on a resource asked for but not in the same class. */
  ghost predicate Selects(w: World, a: Args, id: Id, r: Row) {
    && Competes(a, id, r)
    && r.startsAt < BlockedTo(w, a.service, a.endsAt) + 28_800_000
    && r.endsAt > BlockedFrom(w, a.service, a.startsAt) - 28_800_000
    && (r.staff == a.staff ||
        (!IsSeatOf(a, r) && r.service in w.services && w.services[r.service].resource.Some? && w.services[r.service].resource.value in a.resources))
  }

  ghost predicate SelectsSome(w: World, a: Args, id: Id, r: Option<Row>) {
    r.Some? && Selects(w, a, id, r.value)
  }

  lemma TouchesMeans(w: World, a: Args, id: Id, r: Row)
    ensures Touches(w, a, id, r) <==> Selects(w, a, id, r)
  {
    OccupiedIs(w, a);
  }

  /** A commit has to start over exactly if, since its snapshot, another transaction wrote
      a row the guard selects, before or after that write, or anybody wrote the
      appointment being moved, or used the code. */
  lemma ClashIs(c: Config, e: Effect, write: Write)
    ensures Clash(c, e, write) <==>
      || e.target == Some(write.id)
      || (write.author.Some? && SelectsSome(c.world, e.args, write.id, write.before))
      || (write.author.Some? && SelectsSome(c.world, e.args, write.id, write.after))
      || (e.target == None && e.row.promo.Some? && write.promo == e.row.promo)
  {
    if write.before.Some? {
      TouchesMeans(c.world, e.args, write.id, write.before.value);
    }
    if write.after.Some? {
      TouchesMeans(c.world, e.args, write.id, write.after.value);
    }
  }
}
