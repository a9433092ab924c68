/** Concurrent booking requests against a serializable store.  A run is any sequence of
    labels: snapshots, commits, aborts with bounded retry, and status changes made by
    plain updates outside a transaction. */
module Protocol {
  import opened Prelude
  import opened Calendar
  import opened Guard
  import opened Booking

  /** One committed write; `author` is None for a plain update. */
  datatype Write = Write(author: Option<RequestId>, id: Id, before: Option<Row>, after: Option<Row>, promo: Option<Id>)

  datatype Tx =
    | Waiting(attempt: nat)
    | Running(attempt: nat, since: nat, snapshot: Db, now: int)
    | Committed(id: Id, index: nat)
    | Refused(reason: Refusal)
    | GaveUp

  datatype System = System(db: Db, log: seq<Write>, txs: map<RequestId, Tx>)

  datatype Label =
    | Begin(request: RequestId, now: int)
    | Refuse(request: RequestId)
    | Commit(request: RequestId, newId: Id)
    | Abort(request: RequestId)
    | SetStatus(id: Id, status: Status)
    | Remove(id: Id)

  const LAST_ATTEMPT := 2

  function Lookup(rows: Rows, id: Id): Option<Row> {
    if id in rows then Some(rows[id]) else None
  }

  function ApplyWrite(db: Db, w: Write): Db {
    Db(
      match w.after case Some(r) => db.rows[w.id := r] case None => db.rows - {w.id},
      match w.promo case Some(p) => db.usage[p := Used(db.usage, p) + 1] case None => db.usage)
  }

  function Used(usage: map<Id, int>, p: Id): int {
    if p in usage then usage[p] else 0
  }

  /** A transaction aborts if a write committed since its snapshot touched what it read
      or writes: rows its queries select (transactions only; plain updates are not
      tracked), the row it updates, or the promo code it locked. */
  predicate Clash(c: Config, e: Effect, w: Write) {
    || e.target == Some(w.id)
    || (w.author.Some? && (TouchesSome(c, e, w.id, w.before) || TouchesSome(c, e, w.id, w.after)))
    || (e.target == None && e.row.promo.Some? && w.promo == e.row.promo)
  }

  predicate TouchesSome(c: Config, e: Effect, id: Id, r: Option<Row>) {
    r.Some? && Touches(c.world, e.args, id, r.value)
  }

  function Outcome(c: Config, s: System, r: RequestId): Result<Effect, Refusal>
    requires r in c.requests && r in s.txs && s.txs[r].Running?
    requires c.requests[r].Create? ==> c.requests[r].services != []
  {
    Attempt(c, c.requests[r], s.txs[r].snapshot, s.txs[r].now)
  }

  predicate IsRunning(c: Config, s: System, r: RequestId) {
    && r in c.requests && r in s.txs && s.txs[r].Running?
    && (c.requests[r].Create? ==> c.requests[r].services != [])
  }

  predicate FreshId(s: System, id: Id) {
    id !in s.db.rows && forall k :: 0 <= k < |s.log| ==> s.log[k].id != id
  }

  predicate Enabled(c: Config, s: System, l: Label) {
    match l
    case Begin(r, _) => r in c.requests && r in s.txs && s.txs[r].Waiting?
    case Refuse(r) => IsRunning(c, s, r) && Outcome(c, s, r).Failure?
    case Commit(r, newId) =>
      && IsRunning(c, s, r) && Outcome(c, s, r).Success?
      && s.txs[r].since <= |s.log|
      && (forall k :: s.txs[r].since <= k < |s.log| ==> !Clash(c, Outcome(c, s, r).value, s.log[k]))
      && (Outcome(c, s, r).value.target == None ==> FreshId(s, newId))
    case Abort(r) => r in s.txs && s.txs[r].Running?
    case SetStatus(id, status) =>
      id in s.db.rows && (s.db.rows[id].status.Active() || !status.Active())
    case Remove(id) => id in s.db.rows
  }

  function Push(s: System, w: Write): System {
    s.(db := ApplyWrite(s.db, w), log := s.log + [w])
  }

  function TargetId(e: Effect, newId: Id): Id {
    match e.target case Some(id) => id case None => newId
  }

  function WriteOf(s: System, r: RequestId, e: Effect, newId: Id): Write {
    var id := TargetId(e, newId);
    Write(Some(r), id, Lookup(s.db.rows, id), Some(e.row), if e.target == None then e.row.promo else None)
  }

  function Next(c: Config, s: System, l: Label): System
    requires Enabled(c, s, l)
  {
    match l
    case Begin(r, now) => s.(txs := s.txs[r := Running(s.txs[r].attempt, |s.log|, s.db, now)])
    case Refuse(r) => s.(txs := s.txs[r := Refused(Outcome(c, s, r).error)])
    case Commit(r, newId) =>
      var e := Outcome(c, s, r).value;
      Push(s, WriteOf(s, r, e, newId)).(txs := s.txs[r := Committed(TargetId(e, newId), |s.log|)])
    case Abort(r) =>
      s.(txs := s.txs[r := if s.txs[r].attempt < LAST_ATTEMPT then Waiting(s.txs[r].attempt + 1) else GaveUp])
    case SetStatus(id, status) =>
      Push(s, Write(None, id, Some(s.db.rows[id]), Some(s.db.rows[id].(status := status)), None))
    case Remove(id) =>
      Push(s, Write(None, id, Some(s.db.rows[id]), None, None))
  }

  predicate IsRun(c: Config, s: System, labels: seq<Label>)
    decreases |labels|
  {
    labels == [] || (Enabled(c, s, labels[0]) && IsRun(c, Next(c, s, labels[0]), labels[1..]))
  }

  function Final(c: Config, s: System, labels: seq<Label>): System
    requires IsRun(c, s, labels)
    decreases |labels|
  {
    if labels == [] then s else Final(c, Next(c, s, labels[0]), labels[1..])
  }

  function Start(c: Config, db: Db): System {
    System(db, [], map r | r in c.requests :: Waiting(0))
  }

  // ---------- the log replays the store ----------

  function Replay(db: Db, ws: seq<Write>): Db {
    if ws == [] then db else ApplyWrite(Replay(db, ws[..|ws| - 1]), ws[|ws| - 1])
  }

  /** A plain update only frees slots or relabels an active appointment. */
  predicate Recorded(rows: Rows, w: Write) {
    && w.before == Lookup(rows, w.id)
    && (w.after.Some? ==> w.after.value.startsAt < w.after.value.endsAt)
    && (w.author == None ==>
      && w.before.Some?
      && w.promo == None
      && (w.after.Some? && w.after.value.status.Active() ==>
        w.before.value.status.Active() && SameSlot(w.before.value, w.after.value)))
  }

  predicate Faithful(db: Db, ws: seq<Write>) {
    ws == [] || (Faithful(db, ws[..|ws| - 1]) && Recorded(Replay(db, ws[..|ws| - 1]).rows, ws[|ws| - 1]))
  }

  lemma ReplayPush(db: Db, ws: seq<Write>, w: Write)
    ensures Replay(db, ws + [w]) == ApplyWrite(Replay(db, ws), w)
    ensures Faithful(db, ws + [w]) <==> Faithful(db, ws) && Recorded(Replay(db, ws).rows, w)
  {
    assert (ws + [w])[..|ws|] == ws;
  }

  /** The commit rule is enough: a slot free in the snapshot is free now, the updated row
      is as it was read, and so is the locked promo counter. */
  lemma {:induction false} UnclashedStandsNow(c: Config, e: Effect, snapshot: Db, ws: seq<Write>)
    requires ValidWorld(c.world) && Faithful(snapshot, ws) && e.args.startsAt < e.args.endsAt
    requires Bookable(c.world, snapshot.rows, e.args)
    requires forall k :: 0 <= k < |ws| ==> !Clash(c, e, ws[k])
    ensures Bookable(c.world, Replay(snapshot, ws).rows, e.args)
    ensures e.target.Some? ==>
      Lookup(Replay(snapshot, ws).rows, e.target.value) == Lookup(snapshot.rows, e.target.value)
    ensures e.target == None && e.row.promo.Some? ==>
      Used(Replay(snapshot, ws).usage, e.row.promo.value) == Used(snapshot.usage, e.row.promo.value)
  {
    if ws != [] {
      var rest, last := ws[..|ws| - 1], ws[|ws| - 1];
      UnclashedStandsNow(c, e, snapshot, rest);
      var rows := Replay(snapshot, rest).rows;
      var rows' := ApplyWrite(Replay(snapshot, rest), last).rows;
      if last.author == None || last.after == None {
        assert Eases(rows, rows');
        EasingKeepsBookable(c.world, rows, rows', e.args);
      } else {
        UntouchedKeepsBookable(c.world, rows, last.id, last.after.value, e.args);
      }
    }
  }
}
