/** The promises of the booking calendar, over every interleaving of requests, aborts,
    retries and status changes. */
module Safety {
  import opened Prelude
  import opened Calendar
  import opened Guard
  import opened Booking
  import opened Protocol
  import opened Runs

  ghost predicate GoodStart(c: Config, db: Db) {
    ValidConfig(c) && Consistent(c.world, db.rows) && UsageWithinLimits(c, db.usage)
  }

  ghost predicate Reaches(c: Config, db: Db, labels: seq<Label>, s: System) {
    GoodStart(c, db) && IsRun(c, Start(c, db), labels) && s == Final(c, Start(c, db), labels)
  }

  lemma ReachedIsSound(c: Config, db: Db, labels: seq<Label>, s: System)
    requires Reaches(c, db, labels, s)
    ensures Invariant(c, s)
  {
    RunKeepsInvariant(c, Start(c, db), labels);
  }

  /** Two active appointments of one provider overlap, buffers included, only as seats
      of the same class instance. */
  lemma NoDoubleBooking(c: Config, db: Db, labels: seq<Label>, s: System, i: Id, j: Id)
    requires Reaches(c, db, labels, s)
    requires i in s.db.rows && j in s.db.rows && i != j
    requires s.db.rows[i].status.Active() && s.db.rows[j].status.Active()
    requires s.db.rows[i].business == s.db.rows[j].business && s.db.rows[i].staff == s.db.rows[j].staff
    requires Overlap(OccupiedRow(c.world, s.db.rows[i]), OccupiedRow(c.world, s.db.rows[j]))
    ensures s.db.rows[i].service == s.db.rows[j].service && s.db.rows[i].startsAt == s.db.rows[j].startsAt
  {
    ReachedIsSound(c, db, labels, s);
    assert Bookable(c.world, s.db.rows, ArgsOf(c.world, i, s.db.rows[i]));
  }

  /** One room or piece of equipment serves one class instance at a time, whichever
      providers hold the appointments. */
  lemma ResourceIsExclusive(c: Config, db: Db, labels: seq<Label>, s: System, i: Id, j: Id)
    requires Reaches(c, db, labels, s)
    requires i in s.db.rows && j in s.db.rows && i != j
    requires s.db.rows[i].status.Active() && s.db.rows[j].status.Active()
    requires s.db.rows[i].business == s.db.rows[j].business
    requires ResourceOf(c.world, s.db.rows[i].service).Some?
    requires ResourceOf(c.world, s.db.rows[i].service) == ResourceOf(c.world, s.db.rows[j].service)
    requires Overlap(OccupiedRow(c.world, s.db.rows[i]), OccupiedRow(c.world, s.db.rows[j]))
    ensures s.db.rows[i].service == s.db.rows[j].service && s.db.rows[i].startsAt == s.db.rows[j].startsAt
  {
    ReachedIsSound(c, db, labels, s);
    assert Bookable(c.world, s.db.rows, ArgsOf(c.world, i, s.db.rows[i]));
    OneResource(c.world, s.db.rows[i].service);
  }

  /** A class instance: everything that must agree for two clients to share it. */
  datatype Instance = Instance(business: Id, staff: Id, service: Id, startsAt: int)

  function InstanceOf(r: Row): Instance {
    Instance(r.business, r.staff, r.service, r.startsAt)
  }

  function Attendees(rows: Rows, n: Instance): set<Id> {
    set id | id in rows && rows[id].status.Active() && InstanceOf(rows[id]) == n
  }

  lemma ConsistentSeats(w: World, rows: Rows, n: Instance)
    requires Consistent(w, rows)
    ensures |Attendees(rows, n)| <= Seats(w, n.service)
  {
    if id :| id in Attendees(rows, n) {
      assert Bookable(w, rows, ArgsOf(w, id, rows[id]));
      AttendeesAreMates(w, rows, id);
    }
  }

  lemma AttendeesAreMates(w: World, rows: Rows, id: Id)
    requires id in rows && rows[id].status.Active()
    ensures |Attendees(rows, InstanceOf(rows[id]))| == |Mates(rows, ArgsOf(w, id, rows[id]))| + 1
  {
    assert Attendees(rows, InstanceOf(rows[id])) == Mates(rows, ArgsOf(w, id, rows[id])) + {id};
  }

  /** A class instance never has more active appointments than seats. */
  lemma CapacityIsRespected(c: Config, db: Db, labels: seq<Label>, s: System, n: Instance)
    requires Reaches(c, db, labels, s)
    ensures |Attendees(s.db.rows, n)| <= Seats(c.world, n.service)
  {
    ReachedIsSound(c, db, labels, s);
    ConsistentSeats(c.world, s.db.rows, n);
  }

  /** A request commits at most once, whatever its retries. */
  lemma CommitsAtMostOnce(c: Config, db: Db, labels: seq<Label>, s: System, j: nat, k: nat)
    requires Reaches(c, db, labels, s)
    requires j < |s.log| && k < |s.log| && s.log[j].author.Some? && s.log[j].author == s.log[k].author
    ensures j == k
  {
    ReachedIsSound(c, db, labels, s);
    assert EntrySound(c, s, j) && EntrySound(c, s, k);
  }

  // ---------- bounded retries ----------

  function Begins(labels: seq<Label>, r: RequestId): nat {
    if labels == [] then 0
    else (if labels[0].Begin? && labels[0].request == r then 1 else 0) + Begins(labels[1..], r)
  }

  function AttemptsLeft(t: Tx): int {
    match t
    case Waiting(attempt) => LAST_ATTEMPT + 1 - attempt
    case Running(attempt, _, _, _) => LAST_ATTEMPT - attempt
    case _ => 0
  }

  lemma {:induction false} BeginsAreBounded(c: Config, s: System, labels: seq<Label>, r: RequestId)
    requires ValidConfig(c) && Invariant(c, s) && IsRun(c, s, labels) && r in s.txs
    ensures r in Final(c, s, labels).txs
    ensures Begins(labels, r) + AttemptsLeft(Final(c, s, labels).txs[r]) <= AttemptsLeft(s.txs[r])
    decreases |labels|
  {
    if labels != [] {
      StepKeepsInvariant(c, s, labels[0]);
      BeginsAreBounded(c, Next(c, s, labels[0]), labels[1..], r);
      assert TxSound(s, r, s.txs[r]);
    }
  }

  /** `attempt < 2` gives every request at most three transactions. */
  lemma AtMostThreeAttempts(c: Config, db: Db, labels: seq<Label>, s: System, r: RequestId)
    requires Reaches(c, db, labels, s) && r in c.requests
    ensures Begins(labels, r) <= 3
  {
    RunKeepsInvariant(c, Start(c, db), labels);
    BeginsAreBounded(c, Start(c, db), labels, r);
    assert TxSound(s, r, s.txs[r]);
  }

  // ---------- promo codes ----------

  function PromoWinners(c: Config, s: System, p: Id): set<RequestId> {
    set r | r in s.txs && r in c.requests && s.txs[r].Committed?
      && c.requests[r].Create? && c.requests[r].promo == Some(p)
  }

  lemma StepCountsPromo(c: Config, s: System, l: Label, p: Id)
    requires ValidConfig(c) && Invariant(c, s) && Enabled(c, s, l)
    ensures var s' := Next(c, s, l);
      && Used(s'.db.usage, p) - |PromoWinners(c, s', p)| == Used(s.db.usage, p) - |PromoWinners(c, s, p)|
      && s.db.usage.Keys <= s'.db.usage.Keys
  {
    if l.Commit? {
      var e := Outcome(c, s, l.request).value;
      EffectShape(c, c.requests[l.request], s.txs[l.request].snapshot, s.txs[l.request].now);
      CommitCountsPromo(c, s, l.request, l.newId, e, p);
    } else {
      assert PromoWinners(c, Next(c, s, l), p) == PromoWinners(c, s, p);
    }
  }

  lemma CommitCountsPromo(c: Config, s: System, r: RequestId, newId: Id, e: Effect, p: Id)
    requires r in c.requests && r in s.txs && s.txs[r].Running?
    requires c.requests[r].Create? <==> e.target == None
    requires c.requests[r].Create? ==> e.row.promo == c.requests[r].promo
    ensures var s' := Push(s, WriteOf(s, r, e, newId)).(txs := s.txs[r := Committed(TargetId(e, newId), |s.log|)]);
      && Used(s'.db.usage, p) - |PromoWinners(c, s', p)| == Used(s.db.usage, p) - |PromoWinners(c, s, p)|
      && s.db.usage.Keys <= s'.db.usage.Keys
  {
    var s' := Push(s, WriteOf(s, r, e, newId)).(txs := s.txs[r := Committed(TargetId(e, newId), |s.log|)]);
    if c.requests[r].Create? && c.requests[r].promo == Some(p) {
      assert PromoWinners(c, s', p) == PromoWinners(c, s, p) + {r};
    } else {
      assert PromoWinners(c, s', p) == PromoWinners(c, s, p);
    }
  }

  lemma {:induction false} PromoUseIsCounted(c: Config, s: System, labels: seq<Label>, p: Id)
    requires ValidConfig(c) && Invariant(c, s) && IsRun(c, s, labels)
    ensures var s' := Final(c, s, labels);
      && Used(s'.db.usage, p) - |PromoWinners(c, s', p)| == Used(s.db.usage, p) - |PromoWinners(c, s, p)|
      && s.db.usage.Keys <= s'.db.usage.Keys
    decreases |labels|
  {
    if labels != [] {
      StepKeepsInvariant(c, s, labels[0]);
      StepCountsPromo(c, s, labels[0], p);
      PromoUseIsCounted(c, Next(c, s, labels[0]), labels[1..], p);
    }
  }

  /** A code's counter rises by one per committed booking that used it - aborted,
      refused and abandoned attempts add nothing - and never passes its limit. */
  lemma PromoLimitHolds(c: Config, db: Db, labels: seq<Label>, s: System, p: Id)
    requires Reaches(c, db, labels, s) && p in c.promos && p in db.usage
    ensures p in s.db.usage && s.db.usage[p] == db.usage[p] + |PromoWinners(c, s, p)|
    ensures c.promos[p].maxUsages.Some? ==> s.db.usage[p] <= c.promos[p].maxUsages.value
  {
    PromoUseIsCounted(c, Start(c, db), labels, p);
    assert PromoWinners(c, Start(c, db), p) == {};
    ReachedIsSound(c, db, labels, s);
  }

  // ---------- contention for one slot ----------

  function WinnerRow(s: System, r: RequestId): Id
    requires r in s.txs && s.txs[r].Committed?
  {
    s.txs[r].id
  }

  /** Requests whose created appointment is active in the instance. */
  function Holders(c: Config, s: System, n: Instance): set<RequestId> {
    set r | r in s.txs && r in c.requests && c.requests[r].Create? && s.txs[r].Committed?
      && s.txs[r].id in Attendees(s.db.rows, n)
  }

  lemma CreatedIdsDiffer(c: Config, s: System, q: RequestId, r: RequestId)
    requires Invariant(c, s) && q in s.txs && r in s.txs && q in c.requests && r in c.requests && q != r
    requires c.requests[q].Create? && c.requests[r].Create?
    requires s.txs[q].Committed? && s.txs[r].Committed?
    ensures s.txs[q].id != s.txs[r].id
  {
    assert TxSound(s, q, s.txs[q]) && TxSound(s, r, s.txs[r]);
    assert EntrySound(c, s, s.txs[q].index) && EntrySound(c, s, s.txs[r].index);
  }

  lemma {:induction false} HoldersFit(c: Config, s: System, held: set<RequestId>, ids: set<Id>)
    requires Invariant(c, s)
    requires forall r | r in held :: r in s.txs && r in c.requests && c.requests[r].Create? && s.txs[r].Committed?
    requires forall r | r in held :: s.txs[r].id in ids
    ensures |held| <= |ids|
    decreases held
  {
    if r :| r in held {
      forall q | q in held - {r}
        ensures s.txs[q].id in ids - {s.txs[r].id}
      {
        CreatedIdsDiffer(c, s, q, r);
      }
      HoldersFit(c, s, held - {r}, ids - {s.txs[r].id});
    }
  }

  /** Of any number of requests for one slot, at most as many hold it as it has seats. */
  lemma ContendersForOneSlot(c: Config, db: Db, labels: seq<Label>, s: System, n: Instance)
    requires Reaches(c, db, labels, s)
    ensures |Holders(c, s, n)| <= Seats(c.world, n.service)
  {
    ReachedIsSound(c, db, labels, s);
    ConsistentSeats(c.world, s.db.rows, n);
    HoldersFit(c, s, Holders(c, s, n), Attendees(s.db.rows, n));
  }
}
