/** The booking service as it runs: one request's retry loop while others act, status
    changes, and confirmation. */
module BookingDesk {
  import opened Prelude
  import opened Calendar
  import opened Guard
  import opened Booking
  import opened Protocol
  import opened Runs
  import opened Safety
  import opened Unguarded

  /** Labels that advance request r. */
  predicate ActsFor(l: Label, r: RequestId) {
    (l.Begin? || l.Refuse? || l.Commit? || l.Abort?) && l.request == r
  }

  ghost predicate Traces(c: Config, start: System, trace: seq<Label>, s: System) {
    IsRun(c, start, trace) && Final(c, start, trace) == s
  }

  lemma {:induction false} TraceOneMore(c: Config, start: System, trace: seq<Label>, l: Label)
    requires IsRun(c, start, trace) && Enabled(c, Final(c, start, trace), l)
    ensures Traces(c, start, trace + [l], Next(c, Final(c, start, trace), l))
    decreases |trace|
  {
    if trace == [] {
      assert trace + [l] == [l];
      assert [l][1..] == [];
    } else {
      TraceOneMore(c, Next(c, start, trace[0]), trace[1..], l);
      assert (trace + [l])[1..] == trace[1..] + [l];
    }
  }

  lemma FreshIdExists(s: System)
    ensures exists id :: FreshId(s, id)
  {
    var logged := set k | 0 <= k < |s.log| :: s.log[k].id;
    var id := Above(s.db.rows.Keys + logged);
    assert forall k :: 0 <= k < |s.log| ==> s.log[k].id in s.db.rows.Keys + logged;
    assert FreshId(s, id);
  }

  // ---------- what the answer of a request says ----------

  /** The decision of request r, as a function of the store it reads and of the time. */
  ghost function DecisionOf(c: Config, r: RequestId): (Db, int) -> Result<Effect, Refusal> {
    (db: Db, now: int) =>
      if r in c.requests && (c.requests[r].Create? ==> c.requests[r].services != []) then Attempt(c, c.requests[r], db, now)
      else Failure(NoSuchAppointment)
  }

  /** The store as it was when `since` writes had been logged, reached from db0 and log0. */
  ghost predicate SnapshotAt(db0: Db, log0: seq<Write>, log: seq<Write>, since: nat, snapshot: Db) {
    |log0| <= since <= |log| && log0 <= log && snapshot == Replay(db0, log[|log0|..since])
  }

  /** On some store during the call the decision was d. */
  ghost predicate DecidedOn(decide: (Db, int) -> Result<Effect, Refusal>, db0: Db, log0: seq<Write>, log: seq<Write>, now: int,
                            d: Result<Effect, Refusal>) {
    exists since: nat, snapshot :: SnapshotAt(db0, log0, log, since, snapshot) && decide(snapshot, now) == d
  }

  /** On some store during the call the request was accepted, and a write by somebody else
      then touched what the decision rested on. */
  ghost predicate Beaten(c: Config, decide: (Db, int) -> Result<Effect, Refusal>, r: RequestId, db0: Db, log0: seq<Write>,
                         log: seq<Write>, now: int) {
    exists since: nat, snapshot, j: nat, e ::
      SnapshotAt(db0, log0, log, since, snapshot) && decide(snapshot, now) == Success(e) && BeatenBy(c, r, log, since, e, j)
  }

  predicate BeatenBy(c: Config, r: RequestId, log: seq<Write>, since: nat, e: Effect, j: nat) {
    since <= j < |log| && log[j].author != Some(r) && Clash(c, e, log[j])
  }

  lemma BeatenStays(c: Config, decide: (Db, int) -> Result<Effect, Refusal>, r: RequestId, db0: Db, log0: seq<Write>,
                    log: seq<Write>, now: int, more: seq<Write>)
    requires Beaten(c, decide, r, db0, log0, log, now)
    ensures Beaten(c, decide, r, db0, log0, log + more, now)
  {
    var since: nat, snapshot, j: nat, e :|
      SnapshotAt(db0, log0, log, since, snapshot) && decide(snapshot, now) == Success(e) && BeatenBy(c, r, log, since, e, j);
    assert (log + more)[|log0|..since] == log[|log0|..since];
    BeatenByStays(c, r, log, since, e, j, more);
    assert SnapshotAt(db0, log0, log + more, since, snapshot);
  }

  lemma BeatenNow(c: Config, decide: (Db, int) -> Result<Effect, Refusal>, r: RequestId, db0: Db, log0: seq<Write>,
                  log: seq<Write>, now: int, since: nat, snapshot: Db, e: Effect, j: nat)
    requires SnapshotAt(db0, log0, log, since, snapshot) && decide(snapshot, now) == Success(e) && BeatenBy(c, r, log, since, e, j)
    ensures Beaten(c, decide, r, db0, log0, log, now)
  {
  }

  lemma DecidedNow(decide: (Db, int) -> Result<Effect, Refusal>, db0: Db, log0: seq<Write>, log: seq<Write>, now: int,
                   since: nat, snapshot: Db)
    requires SnapshotAt(db0, log0, log, since, snapshot)
    ensures DecidedOn(decide, db0, log0, log, now, decide(snapshot, now))
  {
  }

  /** The first n transactions of a request were all beaten. */
  ghost predicate BeatenAll(c: Config, decide: (Db, int) -> Result<Effect, Refusal>, r: RequestId, db0: Db, log0: seq<Write>,
                            log: seq<Write>, clock: seq<int>, n: nat) {
    n <= |clock| && forall i :: 0 <= i < n ==> Beaten(c, decide, r, db0, log0, log, clock[i])
  }

  lemma BeatenOnceMore(c: Config, decide: (Db, int) -> Result<Effect, Refusal>, r: RequestId, db0: Db, log0: seq<Write>,
                       log: seq<Write>, log': seq<Write>, clock: seq<int>, n: nat)
    requires BeatenAll(c, decide, r, db0, log0, log, clock, n) && n < |clock| && log <= log'
    requires Beaten(c, decide, r, db0, log0, log', clock[n])
    ensures BeatenAll(c, decide, r, db0, log0, log', clock, n + 1)
  {
    assert log' == log + log'[|log|..];
    forall i | 0 <= i < n
      ensures Beaten(c, decide, r, db0, log0, log', clock[i])
    {
      BeatenStays(c, decide, r, db0, log0, log, clock[i], log'[|log|..]);
    }
  }

  lemma BeatenByStays(c: Config, r: RequestId, log: seq<Write>, since: nat, e: Effect, j: nat, more: seq<Write>)
    requires BeatenBy(c, r, log, since, e, j)
    ensures BeatenBy(c, r, log + more, since, e, j)
  {
    assert (log + more)[j] == log[j];
  }

  /** The log since log0 explains the store. */
  ghost predicate Follows(db0: Db, log0: seq<Write>, db: Db, log: seq<Write>) {
    log0 <= log && db == Replay(db0, log[|log0|..])
  }

  lemma StepFollows(c: Config, s: System, l: Label, db0: Db, log0: seq<Write>)
    requires Enabled(c, s, l) && Follows(db0, log0, s.db, s.log)
    ensures Follows(db0, log0, Next(c, s, l).db, Next(c, s, l).log) && s.log <= Next(c, s, l).log
  {
    var s' := Next(c, s, l);
    if s'.log != s.log {
      var w := s'.log[|s.log|];
      assert s'.log == s.log + [w];
      assert s'.log[|log0|..] == s.log[|log0|..] + [w];
      ReplayPush(db0, s.log[|log0|..], w);
    }
  }

  lemma SnapshotNow(db0: Db, log0: seq<Write>, db: Db, log: seq<Write>)
    requires Follows(db0, log0, db, log)
    ensures SnapshotAt(db0, log0, log, |log|, db)
  {
    assert log[|log0|..|log|] == log[|log0|..];
  }

  lemma SnapshotKept(db0: Db, log0: seq<Write>, log: seq<Write>, log': seq<Write>, since: nat, snapshot: Db)
    requires SnapshotAt(db0, log0, log, since, snapshot) && log <= log'
    ensures SnapshotAt(db0, log0, log', since, snapshot)
  {
    assert log'[|log0|..since] == log[|log0|..since];
  }

  /** The store is what it was but for this effect, written under `id`. */
  ghost predicate Wrote(before: Db, after: Db, e: Effect, id: Id) {
    && (if e.target.Some? then id == e.target.value else id !in before.rows)
    && after.rows == before.rows[id := e.row]
    && after.usage == if e.target == None && e.row.promo.Some?
                      then before.usage[e.row.promo.value := Used(before.usage, e.row.promo.value) + 1] else before.usage
  }

  lemma PushWrites(s: System, r: RequestId, e: Effect, newId: Id)
    requires e.target == None ==> newId !in s.db.rows
    ensures Wrote(s.db, Push(s, WriteOf(s, r, e, newId)).db, e, TargetId(e, newId))
  {
  }

  /** What the request decided on the store it read. */
  ghost function DecisionIn(c: Config, s: System, r: RequestId): Result<Effect, Refusal>
    requires r in s.txs && s.txs[r].Running?
  {
    DecisionOf(c, r)(s.txs[r].snapshot, s.txs[r].now)
  }

  lemma OutcomeIsDecision(c: Config, s: System, r: RequestId)
    requires IsRunning(c, s, r)
    ensures Outcome(c, s, r) == DecisionIn(c, s, r)
  {
  }

  /** A commit that the database does not let through was clashed with by somebody else. */
  lemma ConflictNeedsARival(c: Config, s: System, r: RequestId, newId: Id, e: Effect)
    requires Invariant(c, s) && IsRunning(c, s, r) && Outcome(c, s, r) == Success(e)
    requires FreshId(s, newId) && !Enabled(c, s, Commit(r, newId))
    ensures exists j :: BeatenBy(c, r, s.log, s.txs[r].since, e, j)
  {
    var t := s.txs[r];
    assert TxSound(s, r, t);
    var j :| t.since <= j < |s.log| && Clash(c, e, s.log[j]);
    assert EntrySound(c, s, j);
    assert BeatenBy(c, r, s.log, t.since, e, j);
  }

  lemma CommitIs(c: Config, s: System, r: RequestId, newId: Id, e: Effect)
    requires Enabled(c, s, Commit(r, newId)) && Outcome(c, s, r) == Success(e)
    ensures var s' := Next(c, s, Commit(r, newId));
      && Wrote(s.db, s'.db, e, TargetId(e, newId)) && |s'.log| == |s.log| + 1 && s'.log[|s.log|].after == Some(e.row)
      && r in s'.txs && s'.txs[r] == Committed(TargetId(e, newId), |s.log|)
  {
    PushWrites(s, r, e, newId);
  }

  /** The row fits where it was written. */
  lemma CommitFits(c: Config, s: System, r: RequestId, newId: Id, e: Effect)
    requires ValidConfig(c) && Invariant(c, s) && Enabled(c, s, Commit(r, newId)) && Outcome(c, s, r) == Success(e)
    ensures Bookable(c.world, s.db.rows[TargetId(e, newId) := e.row], ArgsOf(c.world, TargetId(e, newId), e.row))
  {
    CommittedRowFits(c, s, r, newId);
    ItselfDoesNotCount(c.world, s.db.rows, TargetId(e, newId), e.row);
  }

  class Desk {
    const c: Config
    var db: Db
    var log: seq<Write>
    var txs: map<RequestId, Tx>

    constructor (c: Config, db: Db)
      requires GoodStart(c, db)
      ensures this.c == c && State() == Start(c, db) && Invariant(c, State())
    {
      this.c := c;
      this.db := db;
      log := [];
      txs := map r | r in c.requests :: Waiting(0);
    }

    function State(): System
      reads this
    {
      System(db, log, txs)
    }

    /** What the database does on one label. */
    method Perform(l: Label)
      requires ValidConfig(c) && Invariant(c, State()) && Enabled(c, State(), l)
      modifies this
      ensures State() == Next(c, old(State()), l) && Invariant(c, State())
      ensures forall r :: r in txs <==> r in old(txs)
      ensures forall r :: r in txs && !ActsFor(l, r) ==> txs[r] == old(txs)[r]
    {
      StepKeepsInvariant(c, State(), l);
      var s := Next(c, State(), l);
      db, log, txs := s.db, s.log, s.txs;
    }

    /** One step, on the record. */
    method Step(l: Label, ghost start: System, ghost before: seq<Label>) returns (ghost trace: seq<Label>)
      requires ValidConfig(c) && Invariant(c, State()) && Enabled(c, State(), l)
      requires Traces(c, start, before, State()) && Follows(start.db, start.log, db, log)
      modifies this
      ensures State() == Next(c, old(State()), l) && Invariant(c, State())
      ensures forall r :: r in txs <==> r in old(txs)
      ensures forall r :: r in txs && !ActsFor(l, r) ==> txs[r] == old(txs)[r]
      ensures Traces(c, start, trace, State()) && Follows(start.db, start.log, db, log) && old(log) <= log
    {
      TraceOneMore(c, start, before, l);
      StepFollows(c, State(), l, start.db, start.log);
      trace := before + [l];
      Perform(l);
    }

    /** Other requests and status changes happen in the given order; labels that are not
        possible at their turn, or that belong to request `me`, do not happen. */
    method LetOthersAct(labels: seq<Label>, me: RequestId, ghost start: System, ghost before: seq<Label>)
      returns (ghost trace: seq<Label>)
      requires ValidConfig(c) && Invariant(c, State()) && me in txs
      requires Traces(c, start, before, State()) && Follows(start.db, start.log, db, log)
      modifies this
      ensures Invariant(c, State()) && me in txs && txs[me] == old(txs)[me]
      ensures Traces(c, start, trace, State()) && Follows(start.db, start.log, db, log) && old(log) <= log
      ensures labels == [] ==> State() == old(State())
    {
      trace := before;
      for i := 0 to |labels|
        invariant Invariant(c, State()) && me in txs && txs[me] == old(txs)[me]
        invariant Traces(c, start, trace, State()) && Follows(start.db, start.log, db, log) && old(log) <= log
        invariant i == 0 ==> State() == old(State())
      {
        if Enabled(c, State(), labels[i]) && !ActsFor(labels[i], me) {
          trace := Step(labels[i], start, trace);
        }
      }
    }

    /** The row a request has just committed, fitting among all the others. */
    ghost predicate JustCommitted(outcome: Tx)
      reads this
    {
      && outcome.Committed? && outcome.id in db.rows
      && outcome.index == |log| - 1 && log[outcome.index].after == Some(db.rows[outcome.id])
      && Bookable(c.world, db.rows, ArgsOf(c.world, outcome.id, db.rows[outcome.id]))
    }

    method CommitRequest(r: RequestId, newId: Id, ghost e: Effect, ghost start: System, ghost before: seq<Label>)
      returns (ghost trace: seq<Label>)
      requires ValidConfig(c) && Invariant(c, State()) && Enabled(c, State(), Commit(r, newId)) && Outcome(c, State(), r) == Success(e)
      requires Traces(c, start, before, State()) && Follows(start.db, start.log, db, log)
      modifies this
      ensures Invariant(c, State()) && Traces(c, start, trace, State()) && Follows(start.db, start.log, db, log)
      ensures r in txs && JustCommitted(txs[r]) && Wrote(old(db), db, e, txs[r].id)
      ensures old(log) <= log
    {
      CommitFits(c, State(), r, newId, e);
      CommitIs(c, State(), r, newId, e);
      trace := Step(Commit(r, newId), start, before);
    }

    /** Whether the request answers now, and how. */
    ghost predicate Answers(r: RequestId, d: Result<Effect, Refusal>, before: Db, log0: seq<Write>)
      reads this
    {
      r in txs &&
      match d
      case Failure(e) => txs[r] == Refused(e) && db == before && log == log0
      case Success(e) => JustCommitted(txs[r]) && Wrote(before, db, e, txs[r].id)
    }

    ghost predicate Conflicts(r: RequestId, t: Tx, d: Result<Effect, Refusal>, before: Db, log0: seq<Write>)
      requires t.Running?
      reads this
    {
      && r in txs && txs[r] == (if t.attempt < LAST_ATTEMPT then Waiting(t.attempt + 1) else GaveUp)
      && db == before && log == log0
      && d.Success? && exists j :: BeatenBy(c, r, log, t.since, d.value, j)
    }

    /** Refusing or aborting: nothing is written. */
    method EndWithout(r: RequestId, l: Label, ghost start: System, ghost before: seq<Label>) returns (ghost trace: seq<Label>)
      requires ValidConfig(c) && Invariant(c, State()) && IsRunning(c, State(), r) && Enabled(c, State(), l)
      requires l == Abort(r) || (l == Refuse(r) && Outcome(c, State(), r).Failure?)
      requires Traces(c, start, before, State()) && Follows(start.db, start.log, db, log)
      modifies this
      ensures Invariant(c, State()) && Traces(c, start, trace, State()) && Follows(start.db, start.log, db, log)
      ensures db == old(db) && log == old(log) && r in txs
      ensures l.Refuse? ==> txs[r] == Refused(Outcome(c, old(State()), r).error)
      ensures l.Abort? ==> txs[r] == if old(txs)[r].attempt < LAST_ATTEMPT then Waiting(old(txs)[r].attempt + 1) else GaveUp
    {
      trace := Step(l, start, before);
    }

    /** The commit, if the database lets it through. */
    method CommitOrAbort(r: RequestId, e: Effect, ghost start: System, ghost before: seq<Label>)
      returns (conflict: bool, ghost trace: seq<Label>)
      requires ValidConfig(c) && Invariant(c, State()) && IsRunning(c, State(), r) && Outcome(c, State(), r) == Success(e)
      requires Traces(c, start, before, State()) && Follows(start.db, start.log, db, log)
      modifies this
      ensures Invariant(c, State()) && Traces(c, start, trace, State()) && Follows(start.db, start.log, db, log)
      ensures old(log) <= log
      ensures if conflict then Conflicts(r, old(txs)[r], Success(e), old(db), old(log)) else Answers(r, Success(e), old(db), old(log))
    {
      FreshIdExists(State());
      var newId :| FreshId(State(), newId);
      conflict := !Enabled(c, State(), Commit(r, newId));
      if conflict {
        ConflictNeedsARival(c, State(), r, newId, e);
        trace := EndWithout(r, Abort(r), start, before);
      } else {
        trace := CommitRequest(r, newId, e, start, before);
      }
    }

    /** One transaction, from the checks on; `conflict` is the database's write conflict,
        which needs a write by somebody else. */
    method Finish(r: RequestId, ghost d: Result<Effect, Refusal>, ghost start: System, ghost before: seq<Label>)
      returns (conflict: bool, ghost trace: seq<Label>)
      requires ValidConfig(c) && Invariant(c, State()) && IsRunning(c, State(), r) && d == DecisionIn(c, State(), r)
      requires Traces(c, start, before, State()) && Follows(start.db, start.log, db, log)
      modifies this
      ensures Invariant(c, State()) && Traces(c, start, trace, State()) && Follows(start.db, start.log, db, log)
      ensures old(log) <= log
      ensures if conflict then Conflicts(r, old(txs)[r], d, old(db), old(log)) else Answers(r, d, old(db), old(log))
    {
      OutcomeIsDecision(c, State(), r);
      var outcome := Outcome(c, State(), r);
      match outcome
      case Failure(_) =>
        conflict := false;
        trace := EndWithout(r, Refuse(r), start, before);
      case Success(e) =>
        conflict, trace := CommitOrAbort(r, e, start, before);
    }

    /** r's answer is a decision made on some store during the call, and carried out. */
    ghost predicate Justified(r: RequestId, db0: Db, log0: seq<Write>, now: int)
      reads this
    {
      && r in txs
      && (txs[r].Refused? ==> DecidedOn(DecisionOf(c, r), db0, log0, log, now, Failure(txs[r].reason)))
      && (txs[r].Committed? ==> JustCommitted(txs[r]) && exists e :: Stored(txs[r].id, e) && DecidedOn(DecisionOf(c, r), db0, log0, log, now, Success(e)))
    }

    ghost predicate Stored(id: Id, e: Effect)
      reads this
    {
      id in db.rows && db.rows[id] == e.row && (e.target.Some? ==> id == e.target.value)
    }

    lemma AnswerIsJustified(r: RequestId, d: Result<Effect, Refusal>, before: Db, log1: seq<Write>, db0: Db, log0: seq<Write>,
                            now: int, since: nat, snapshot: Db)
      requires Answers(r, d, before, log1) && d == DecisionOf(c, r)(snapshot, now)
      requires SnapshotAt(db0, log0, log, since, snapshot)
      ensures (txs[r].Refused? || txs[r].Committed?) && Justified(r, db0, log0, now)
    {
      DecidedNow(DecisionOf(c, r), db0, log0, log, now, since, snapshot);
      if d.Success? {
        assert Stored(txs[r].id, d.value);
      }
    }

    /** The snapshot of a transaction, and what others do after it. */
    method BeginAndWait(r: RequestId, attempt: nat, rivals: seq<Label>, now: int, ghost start: System, ghost before: seq<Label>)
      returns (ghost trace: seq<Label>)
      requires ValidConfig(c) && Invariant(c, State())
      requires r in c.requests && r in txs && txs[r] == Waiting(attempt)
      requires Traces(c, start, before, State()) && Follows(start.db, start.log, db, log)
      modifies this
      ensures Invariant(c, State()) && Traces(c, start, trace, State()) && Follows(start.db, start.log, db, log)
      ensures IsRunning(c, State(), r) && txs[r] == Running(attempt, |old(log)|, old(db), now)
      ensures old(log) <= log && SnapshotAt(start.db, start.log, log, |old(log)|, old(db))
      ensures rivals == [] ==> db == old(db) && log == old(log)
      ensures DecisionIn(c, State(), r) == DecisionOf(c, r)(old(db), now)
    {
      SnapshotNow(start.db, start.log, db, log);
      trace := Step(Begin(r, now), start, before);
      trace := LetOthersAct(rivals, r, start, trace);
      SnapshotKept(start.db, start.log, old(log), log, |old(log)|, old(db));
    }

    /** How a transaction ended, from its snapshot on. */
    ghost predicate Ended(r: RequestId, conflict: bool, t: Tx, d: Result<Effect, Refusal>, before: Db, log1: seq<Write>)
      requires t.Running?
      reads this
    {
      if conflict then Conflicts(r, t, d, before, log1) else Answers(r, d, before, log1)
    }

    lemma EndedMeans(r: RequestId, conflict: bool, t: Tx, d: Result<Effect, Refusal>, before: Db, log1: seq<Write>, start: System)
      requires t.Running? && Ended(r, conflict, t, d, before, log1)
      requires d == DecisionOf(c, r)(t.snapshot, t.now) && SnapshotAt(start.db, start.log, log, t.since, t.snapshot)
      ensures conflict ==> Beaten(c, DecisionOf(c, r), r, start.db, start.log, log, t.now) && |log1| > t.since && log1 == log
      ensures !conflict ==> (txs[r].Refused? || txs[r].Committed?) && Justified(r, start.db, start.log, t.now)
    {
      if conflict {
        var j: nat :| BeatenBy(c, r, log, t.since, d.value, j);
        BeatenNow(c, DecisionOf(c, r), r, start.db, start.log, log, t.now, t.since, t.snapshot, d.value, j);
      } else {
        AnswerIsJustified(r, d, before, log1, start.db, start.log, t.now, t.since, t.snapshot);
      }
    }

    /** One transaction of the loop. */
    method TryOnce(r: RequestId, attempt: nat, rivals: seq<Label>, now: int, ghost d: Result<Effect, Refusal>, ghost start: System,
                   ghost before: seq<Label>)
      returns (conflict: bool, ghost trace: seq<Label>)
      requires ValidConfig(c) && Invariant(c, State()) && attempt <= LAST_ATTEMPT && d == DecisionOf(c, r)(db, now)
      requires r in c.requests && r in txs && txs[r] == Waiting(attempt)
      requires Traces(c, start, before, State()) && Follows(start.db, start.log, db, log)
      modifies this
      ensures Invariant(c, State()) && Traces(c, start, trace, State()) && Follows(start.db, start.log, db, log)
      ensures old(log) <= log && SnapshotAt(start.db, start.log, log, |old(log)|, old(db))
      ensures exists db1, log1 :: (
        && Ended(r, conflict, Running(attempt, |old(log)|, old(db), now), d, db1, log1)
        && (rivals == [] ==> db1 == old(db) && log1 == old(log)))
    {
      trace := BeginAndWait(r, attempt, rivals, now, start, before);
      ghost var db1, log1 := db, log;
      conflict, trace := Finish(r, d, start, trace);
      SnapshotKept(start.db, start.log, log1, log, |old(log)|, old(db));
      assert Ended(r, conflict, Running(attempt, |old(log)|, old(db), now), d, db1, log1);
    }

    /** The loop around the transaction of `create`, `reschedule` and `updateDetails`: a
        write conflict is retried while `attempt < 2`; any other error is final.
        `rivals[k]` happens between the k-th snapshot and its commit.  Success means the
        effect of an accepted decision is stored; a refusal was right on a store during the
        call; giving up took a clashing write by others in each of three transactions; and
        undisturbed, the first decision is the answer. */
    method RunRequest(r: RequestId, rivals: seq<seq<Label>>, clock: seq<int>)
      returns (outcome: Tx, ghost trace: seq<Label>)
      requires ValidConfig(c) && Invariant(c, State())
      requires r in c.requests && r in txs && txs[r] == Waiting(0)
      requires |rivals| == |clock| == LAST_ATTEMPT + 1
      modifies this
      ensures Invariant(c, State()) && Traces(c, old(State()), trace, State())
      ensures r in txs && txs[r] == outcome && (outcome.Refused? || outcome == GaveUp || JustCommitted(outcome))
      ensures outcome != GaveUp ==> exists i :: 0 <= i < |clock| && Justified(r, old(db), old(log), clock[i])
      ensures outcome == GaveUp ==> |log| >= |old(log)| + 3
      ensures outcome == GaveUp ==> BeatenAll(c, DecisionOf(c, r), r, old(db), old(log), log, clock, LAST_ATTEMPT + 1)
      ensures rivals[0] == [] ==> Answers(r, DecisionOf(c, r)(old(db), clock[0]), old(db), old(log))
    {
      ghost var start := State();
      trace := [];
      assert log[|log|..] == [];
      var attempt := 0;
      while true
        invariant attempt <= LAST_ATTEMPT
        invariant Invariant(c, State()) && r in txs && txs[r] == Waiting(attempt)
        invariant Traces(c, start, trace, State()) && Follows(start.db, start.log, db, log)
        invariant |log| >= |start.log| + attempt
        invariant BeatenAll(c, DecisionOf(c, r), r, start.db, start.log, log, clock, attempt)
        invariant attempt == 0 ==> State() == start
        invariant attempt > 0 ==> rivals[0] != []
        decreases LAST_ATTEMPT - attempt
      {
        ghost var before := log;
        var conflict;
        ghost var d, t := DecisionOf(c, r)(db, clock[attempt]), Running(attempt, |log|, db, clock[attempt]);
        conflict, trace := TryOnce(r, attempt, rivals[attempt], clock[attempt], d, start, trace);
        outcome := txs[r];
        ghost var db1, log1 :| Ended(r, conflict, t, d, db1, log1) && (rivals[attempt] == [] ==> db1 == t.snapshot && log1 == before);
        EndedMeans(r, conflict, t, d, db1, log1, start);
        if conflict {
          BeatenOnceMore(c, DecisionOf(c, r), r, start.db, start.log, before, log, clock, attempt);
        }
        if !conflict || attempt == LAST_ATTEMPT {
          return;
        }
        attempt := attempt + 1;
      }
    }

    /** `updateStatus`, deciding on the status it overwrites. */
    method UpdateStatus(id: Id, to: Status) returns (done: bool)
      requires ValidConfig(c) && Invariant(c, State())
      modifies this
      ensures Invariant(c, State())
      ensures done <==> id in old(db).rows && IsListed(old(db).rows[id].status, to)
      ensures done ==> db.rows == old(db).rows[id := old(db).rows[id].(status := to)] && txs == old(txs)
      ensures !done ==> State() == old(State())
    {
      done := id in db.rows && CanTransition(db.rows[id].status, to);
      if id in db.rows {
        TransitionsAreListed(db.rows[id].status, to);
      }
      if done {
        TransitionIsAStep(c, State(), id, to);
        Perform(SetStatus(id, to));
      }
    }

    /** A deleted appointment is gone, and nothing else with it. */
    method Delete(id: Id)
      requires ValidConfig(c) && Invariant(c, State()) && id in db.rows
      modifies this
      ensures Invariant(c, State())
      ensures db == Db(old(db).rows - {id}, old(db).usage) && txs == old(txs)
      ensures |log| == |old(log)| + 1 && log[|old(log)|] == Write(None, id, Some(old(db).rows[id]), None, None)
    {
      Perform(Remove(id));
    }

    /** `confirm` writes CONFIRMED whatever the status was, so it is not always a step of
        the protocol: it keeps the calendar consistent exactly when the appointment was
        active or the guard would have accepted it again. */
    method Confirm(id: Id) returns (found: bool)
      requires ValidConfig(c) && Invariant(c, State())
      modifies this`db
      ensures found <==> id in old(db).rows
      ensures found ==> db.usage == old(db).usage && db.rows == old(db).rows[id := old(db).rows[id].(status := CONFIRMED)]
      ensures found ==> (Consistent(c.world, db.rows) <==>
        || old(db).rows[id].status.Active()
        || RowsVerdict(c.world, old(db).rows, ArgsOf(c.world, id, old(db).rows[id])) == Accepted)
      ensures !found ==> db == old(db)
    {
      found := id in db.rows;
      if found {
        ConfirmIsSafeExactly(c.world, db.rows, id);
        db := db.(rows := db.rows[id := db.rows[id].(status := CONFIRMED)]);
      }
    }
  }
}
