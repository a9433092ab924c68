/** One booking transaction: what a request asks for, what it reads and what it would
    write, as a function of the store it sees. */
module Booking {
  import opened Prelude
  import opened Clock
  import opened Calendar
  import opened Guard
  import Promo

  type RequestId = nat

  datatype Db = Db(rows: Rows, usage: map<Id, int>)

  /** `create`, `reschedule` and a time-changing `updateDetails`.  `readMinutes` is the
      length of the appointment as read before the transaction started. */
  datatype Request =
    | Create(business: Id, staff: Id, services: seq<Id>, location: Option<Id>, startsAt: int,
             subtotalCents: int, promo: Option<Id>, confirmed: bool)
    | Reschedule(id: Id, startsAt: int, readMinutes: int, byClient: bool)
    | UpdateDetails(id: Id, startsAt: int, readMinutes: int)

  datatype Config = Config(world: World, promos: map<Id, Promo.Code>, requests: map<RequestId, Request>)

  datatype Refusal =
    | NoSuchAppointment
    | PromoRefused(problem: Promo.Problem)
    | Guarded(verdict: Verdict)

  /** What a transaction writes if it commits: a new row, or a new version of `target`. */
  datatype Effect = Effect(target: Option<Id>, args: Args, row: Row)

  function DurationOf(w: World, service: Id): int {
    if service in w.services then w.services[service].durationMinutes else 0
  }

  function TotalMinutes(w: World, services: seq<Id>): int {
    if services == [] then 0 else DurationOf(w, services[0]) + TotalMinutes(w, services[1..])
  }

  /** `resourceIdsForServices` */
  function ResourceIds(w: World, services: seq<Id>): set<Id> {
    set s | s in services && ResourceOf(w, s).Some? :: ResourceOf(w, s).value
  }

  ghost predicate ValidRequest(w: World, q: Request) {
    match q
    case Create(_, _, services, _, _, subtotalCents, _, _) =>
      services != [] && (forall s :: s in services ==> s in w.services) && subtotalCents >= 0
    case Reschedule(_, _, readMinutes, _) => readMinutes > 0
    case UpdateDetails(_, _, readMinutes) => readMinutes > 0
  }

  ghost predicate ValidConfig(c: Config) {
    && ValidWorld(c.world)
    && (forall r | r in c.requests :: ValidRequest(c.world, c.requests[r]))
    && (forall p | p in c.promos :: c.promos[p].value >= 0)
  }

  function CreateArgs(w: World, q: Request): Args
    requires q.Create? && q.services != []
  {
    Args(q.business, q.staff, q.services[0], ResourceIds(w, q.services), q.startsAt,
         AddMinutes(q.startsAt, TotalMinutes(w, q.services)), None, q.location)
  }

  function MoveArgs(w: World, id: Id, r: Row, startsAt: int, minutes: int): Args {
    Args(r.business, r.staff, r.service, ResourceIds(w, [r.service]), startsAt,
         AddMinutes(startsAt, minutes), Some(id), r.location)
  }

  function DiscountFor(c: Config, q: Request, db: Db, now: int): Result<int, Promo.Problem>
    requires q.Create?
  {
    match q.promo
    case None => Success(0)
    case Some(p) =>
      if p !in c.promos || p !in db.usage then Failure(Promo.InvalidCode)
      else Promo.Apply(c.promos[p], q.business, db.usage[p], now, q.subtotalCents)
  }

  function Max(a: int, b: int): int {
    if a >= b then a else b
  }

  /** One run of the transaction body against the store it sees. */
  function Attempt(c: Config, q: Request, db: Db, now: int): Result<Effect, Refusal>
    requires q.Create? ==> q.services != []
  {
    match q
    case Create(_, _, _, _, _, _, _, _) =>
      var discount := DiscountFor(c, q, db, now);
      if discount.Failure? then Failure(PromoRefused(discount.error))
      else
        var args := CreateArgs(c.world, q);
        Checked(c, db, Effect(None, args, Row(q.business, q.staff, args.service, q.location, q.startsAt, args.endsAt,
          if q.confirmed then CONFIRMED else PENDING,
          Promo.StoredTotal(q.subtotalCents, discount.value), discount.value, q.promo)))
    case Reschedule(id, startsAt, readMinutes, byClient) =>
      if id !in db.rows then Failure(NoSuchAppointment)
      else
        var r := db.rows[id];
        var args := MoveArgs(c.world, id, r, startsAt, Max(readMinutes, DurationOf(c.world, r.service)));
        Checked(c, db, Effect(Some(id), args, r.(startsAt := startsAt, endsAt := args.endsAt,
          status := if byClient then PENDING else r.status)))
    case UpdateDetails(id, startsAt, readMinutes) =>
      if id !in db.rows then Failure(NoSuchAppointment)
      else
        var r := db.rows[id];
        var args := MoveArgs(c.world, id, r, startsAt, readMinutes);
        Checked(c, db, Effect(Some(id), args, r.(startsAt := startsAt, endsAt := args.endsAt)))
  }

  function Checked(c: Config, db: Db, e: Effect): Result<Effect, Refusal> {
    var verdict := AssertBookableWindow(c.world, db.rows, e.args);
    if verdict != Accepted then Failure(Guarded(verdict)) else Success(e)
  }

  // ---------- the invariant of the stored appointments ----------

  /** The guard's arguments had this row been booked last. */
  function ArgsOf(w: World, id: Id, r: Row): Args {
    Args(r.business, r.staff, r.service, ResourceIds(w, [r.service]), r.startsAt, r.endsAt, Some(id), r.location)
  }

  /** Every active appointment fits among all the others. */
  ghost predicate Consistent(w: World, rows: Rows) {
    && ValidRows(rows)
    && forall id | id in rows && rows[id].status.Active() :: Bookable(w, rows, ArgsOf(w, id, rows[id]))
  }

  predicate SameSlot(a: Row, b: Row) {
    && a.business == b.business && a.staff == b.staff && a.service == b.service
    && a.startsAt == b.startsAt && a.endsAt == b.endsAt
  }

  lemma OneResource(w: World, service: Id)
    ensures ResourceIds(w, [service]) ==
      if ResourceOf(w, service).Some? then {ResourceOf(w, service).value} else {}
  {
    assert service in [service];
  }

  /** A row that fits among the others may be written: the others still fit too. */
  lemma {:induction false} PutKeepsConsistent(w: World, rows: Rows, id: Id, r: Row)
    requires ValidWorld(w) && Consistent(w, rows) && r.startsAt < r.endsAt
    requires r.status.Active() ==> Bookable(w, rows, ArgsOf(w, id, r))
    ensures Consistent(w, rows[id := r])
  {
    var rows' := rows[id := r];
    forall j | j in rows' && rows'[j].status.Active()
      ensures Bookable(w, rows', ArgsOf(w, j, rows'[j]))
    {
      if j == id {
        ItselfDoesNotCount(w, rows, id, r);
      } else {
        OthersStillFit(w, rows, id, r, j);
      }
    }
  }

  lemma MatesAfterPut(w: World, rows: Rows, id: Id, r: Row, j: Id)
    requires j in rows && j != id && rows[j].status.Active()
    requires |Mates(rows, ArgsOf(w, j, rows[j]))| < Seats(w, rows[j].service)
    requires r.status.Active() ==> |Mates(rows, ArgsOf(w, id, r))| < Seats(w, r.service)
    ensures |Mates(rows[id := r], ArgsOf(w, j, rows[j]))| < Seats(w, rows[j].service)
  {
    var rows', a, b := rows[id := r], ArgsOf(w, j, rows[j]), ArgsOf(w, id, r);
    if id in Mates(rows', a) {
      assert r.status.Active() && rows[j].service == r.service;
      SubsetSize(Mates(rows', a) - {id}, Mates(rows, b) - {j}) by {
        assert forall k :: k in Mates(rows', a) - {id} ==> k in Mates(rows, b) - {j};
      }
      assert j in Mates(rows, b);
    } else {
      SubsetSize(Mates(rows', a), Mates(rows, a)) by {
        assert forall k :: k in Mates(rows', a) ==> k in Mates(rows, a);
      }
    }
  }

  /** An appointment is not its own rival. */
  lemma ItselfDoesNotCount(w: World, rows: Rows, id: Id, r: Row)
    ensures Bookable(w, rows[id := r], ArgsOf(w, id, r)) <==> Bookable(w, rows, ArgsOf(w, id, r))
  {
    var rows', a := rows[id := r], ArgsOf(w, id, r);
    assert Mates(rows', a) == Mates(rows, a);
    assert forall j | j in rows && Rival(a, j, rows[j]) :: j in rows' && rows'[j] == rows[j];
  }

  lemma OthersStillFit(w: World, rows: Rows, id: Id, r: Row, j: Id)
    requires j in rows && j != id && rows[j].status.Active()
    requires Bookable(w, rows, ArgsOf(w, j, rows[j]))
    requires r.status.Active() ==> Bookable(w, rows, ArgsOf(w, id, r))
    ensures Bookable(w, rows[id := r], ArgsOf(w, j, rows[j]))
  {
    OneResource(w, r.service);
    OneResource(w, rows[j].service);
    MatesAfterPut(w, rows, id, r, j);
  }

  lemma RemoveKeepsConsistent(w: World, rows: Rows, id: Id)
    requires Consistent(w, rows)
    ensures Consistent(w, rows - {id})
  {
    var rows' := rows - {id};
    forall j | j in rows' && rows'[j].status.Active()
      ensures Bookable(w, rows', ArgsOf(w, j, rows'[j]))
    {
      EasingKeepsBookable(w, rows, rows', ArgsOf(w, j, rows'[j]));
    }
  }

  // ---------- which writes leave a decision standing ----------

  /** Every appointment active afterwards was active before, in the same slot. */
  ghost predicate Eases(rows: Rows, rows': Rows) {
    forall id | id in rows' && rows'[id].status.Active() ::
      id in rows && rows[id].status.Active() && SameSlot(rows[id], rows'[id])
  }

  lemma EasingKeepsBookable(w: World, rows: Rows, rows': Rows, a: Args)
    requires Eases(rows, rows') && Bookable(w, rows, a)
    ensures Bookable(w, rows', a)
  {
    SubsetSize(Mates(rows', a), Mates(rows, a));
  }

  /** A row outside what the guard's queries select does not change a free slot. */
  lemma UntouchedKeepsBookable(w: World, rows: Rows, id: Id, r: Row, a: Args)
    requires ValidWorld(w) && Bookable(w, rows, a) && a.startsAt < a.endsAt && r.startsAt < r.endsAt
    requires !Touches(w, a, id, r)
    ensures Bookable(w, rows[id := r], a)
  {
    var rows' := rows[id := r];
    if Overlap(OccupiedBy(w, a), OccupiedRow(w, r)) {
      FarRowsDoNotOverlap(w, a, r);
    }
    OccupiedContains(w, a.service, a.startsAt, a.endsAt);
    OccupiedContains(w, r.service, r.startsAt, r.endsAt);
    SubsetSize(Mates(rows', a), Mates(rows, a));
  }

  /** What an accepted attempt is worth on the store it looked at. */
  lemma AcceptedEffectFits(c: Config, q: Request, db: Db, now: int)
    requires ValidConfig(c) && ValidRows(db.rows) && ValidRequest(c.world, q)
    requires Attempt(c, q, db, now).Success?
    ensures var e := Attempt(c, q, db, now).value;
      && e.args.startsAt < e.args.endsAt
      && e.row.startsAt == e.args.startsAt && e.row.endsAt == e.args.endsAt
      && Bookable(c.world, db.rows, e.args)
      && Describes(c.world, e)
  {
    var e := Attempt(c, q, db, now).value;
    if q.Create? {
      TotalMinutesPositive(c.world, q.services);
    }
    AcceptsExactlyBookable(c.world, db.rows, e.args);
  }

  /** Only creations write a new row, and they carry the request's promo code. */
  lemma EffectShape(c: Config, q: Request, db: Db, now: int)
    requires q.Create? ==> q.services != []
    requires Attempt(c, q, db, now).Success?
    ensures var e := Attempt(c, q, db, now).value;
      && (q.Create? <==> e.target == None)
      && (q.Create? ==> e.row.promo == q.promo)
      && (q.Create? && q.promo.Some? ==>
        var p := q.promo.value;
        p in c.promos && p in db.usage && !Promo.Exhausted(c.promos[p], db.usage[p]))
  {
  }

  /** The arguments checked are those of the row to be written, or stronger. */
  ghost predicate Describes(w: World, e: Effect) {
    && e.args.business == e.row.business && e.args.staff == e.row.staff && e.args.service == e.row.service
    && e.args.startsAt == e.row.startsAt && e.args.endsAt == e.row.endsAt
    && e.args.exclude == e.target
    && ResourceIds(w, [e.row.service]) <= e.args.resources
  }

  lemma TotalMinutesPositive(w: World, services: seq<Id>)
    requires ValidWorld(w) && forall s :: s in services ==> s in w.services
    ensures TotalMinutes(w, services) >= |services|
  {
    if services != [] {
      TotalMinutesPositive(w, services[1..]);
    }
  }

  /** A slot free for the checked arguments is free for the written row. */
  lemma FreeForRow(w: World, rows: Rows, e: Effect, id: Id)
    requires Describes(w, e) && Bookable(w, rows, e.args)
    requires e.target == Some(id) || (e.target == None && id !in rows)
    ensures Bookable(w, rows, ArgsOf(w, id, e.row))
  {
    var a := ArgsOf(w, id, e.row);
    assert Mates(rows, a) == Mates(rows, e.args);
    assert forall j | j in rows && Rival(a, j, rows[j]) && UsesResource(w, a, rows[j]) ::
      Rival(e.args, j, rows[j]) && UsesResource(w, e.args, rows[j]);
  }
}
