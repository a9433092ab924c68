/** Many clients, one slot: how many of them can win, and that nobody loses unless somebody
    has won. */
module Contention {
  import opened Prelude
  import opened Calendar
  import opened Booking
  import opened Protocol
  import opened Runs
  import opened Safety

  /** Every request asks for a seat in the same class instance. */
  ghost predicate AllWant(c: Config, n: Instance) {
    forall r | r in c.requests ::
      && c.requests[r].Create? && c.requests[r].services != []
      && Instance(c.requests[r].business, c.requests[r].staff, c.requests[r].services[0], c.requests[r].startsAt) == n
  }

  predicate OnlyRequests(labels: seq<Label>) {
    forall l :: l in labels ==> !l.SetStatus? && !l.Remove?
  }

  function Winners(c: Config, s: System): set<RequestId> {
    set r | r in s.txs && r in c.requests && s.txs[r].Committed?
  }

  ghost predicate WinnersAttend(c: Config, s: System, n: Instance) {
    forall r | r in Winners(c, s) :: s.txs[r].id in Attendees(s.db.rows, n)
  }

  lemma CommitSeatsTheWinner(c: Config, s: System, r: RequestId, newId: Id, n: Instance)
    requires ValidConfig(c) && Invariant(c, s) && AllWant(c, n) && Enabled(c, s, Commit(r, newId))
    requires WinnersAttend(c, s, n)
    ensures WinnersAttend(c, Next(c, s, Commit(r, newId)), n)
  {
    var e := Outcome(c, s, r).value;
    EffectShape(c, c.requests[r], s.txs[r].snapshot, s.txs[r].now);
    CreatedAttends(c, s.txs[r].snapshot, r, s.txs[r].now, n);
    SeatOne(c, s, r, newId, e, n);
  }

  lemma CreatedAttends(c: Config, snapshot: Db, r: RequestId, now: int, n: Instance)
    requires AllWant(c, n) && r in c.requests && Attempt(c, c.requests[r], snapshot, now).Success?
    ensures var e := Attempt(c, c.requests[r], snapshot, now).value;
      InstanceOf(e.row) == n && e.row.status.Active()
  {
  }

  lemma SeatOne(c: Config, s: System, r: RequestId, newId: Id, e: Effect, n: Instance)
    requires WinnersAttend(c, s, n) && newId !in s.db.rows && e.target == None
    requires InstanceOf(e.row) == n && e.row.status.Active()
    ensures WinnersAttend(c, Push(s, WriteOf(s, r, e, newId)).(txs := s.txs[r := Committed(newId, |s.log|)]), n)
  {
    var s' := Push(s, WriteOf(s, r, e, newId)).(txs := s.txs[r := Committed(newId, |s.log|)]);
    forall q | q in Winners(c, s')
      ensures s'.txs[q].id in Attendees(s'.db.rows, n)
    {
      assert q == r || q in Winners(c, s);
    }
  }

  lemma {:induction false} WinnersKeepAttending(c: Config, s: System, labels: seq<Label>, n: Instance)
    requires ValidConfig(c) && Invariant(c, s) && AllWant(c, n) && IsRun(c, s, labels) && OnlyRequests(labels)
    requires WinnersAttend(c, s, n)
    ensures WinnersAttend(c, Final(c, s, labels), n)
    decreases |labels|
  {
    if labels != [] {
      var l := labels[0];
      StepKeepsInvariant(c, s, l);
      if l.Commit? {
        CommitSeatsTheWinner(c, s, l.request, l.newId, n);
      } else {
        assert Winners(c, Next(c, s, l)) == Winners(c, s);
      }
      WinnersKeepAttending(c, Next(c, s, l), labels[1..], n);
    }
  }

  /** However many requests race for one slot, and however they interleave, abort and
      retry, no more of them commit than the slot has seats. */
  lemma NoMoreWinnersThanSeats(c: Config, db: Db, labels: seq<Label>, s: System, n: Instance)
    requires Reaches(c, db, labels, s) && AllWant(c, n) && OnlyRequests(labels)
    ensures |Winners(c, s)| <= Seats(c.world, n.service)
  {
    assert Winners(c, Start(c, db)) == {};
    WinnersKeepAttending(c, Start(c, db), labels, n);
    assert Winners(c, s) == Holders(c, s, n);
    ContendersForOneSlot(c, db, labels, s, n);
  }

  // ---------- a refusal is never spurious ----------

  ghost predicate NobodyMoved(c: Config, db: Db, s: System) {
    && s.log == [] && s.db == db
    && forall r | r in s.txs :: !s.txs[r].Refused? && (s.txs[r].Running? ==> s.txs[r].snapshot == db)
  }

  lemma {:induction false} UntilSomebodyMoves(c: Config, db: Db, s: System, labels: seq<Label>)
    requires NobodyMoved(c, db, s) && IsRun(c, s, labels)
    requires forall r, now: int | r in c.requests && (c.requests[r].Create? ==> c.requests[r].services != []) ::
      Attempt(c, c.requests[r], db, now).Success?
    ensures Final(c, s, labels).log == [] ==> NobodyMoved(c, db, Final(c, s, labels))
    ensures |Final(c, s, labels).log| >= |s.log|
    decreases |labels|
  {
    if labels != [] {
      var s1 := Next(c, s, labels[0]);
      if s1.log == [] {
        UntilSomebodyMoves(c, db, s1, labels[1..]);
      } else {
        LogGrows(c, s1, labels[1..]);
      }
    }
  }

  lemma {:induction false} LogGrows(c: Config, s: System, labels: seq<Label>)
    requires IsRun(c, s, labels)
    ensures |Final(c, s, labels).log| >= |s.log|
    decreases |labels|
  {
    if labels != [] {
      LogGrows(c, Next(c, s, labels[0]), labels[1..]);
    }
  }

  /** The database aborts a transaction only if something was written since its snapshot. */
  predicate AbortsAreJustified(c: Config, s: System, labels: seq<Label>)
    requires IsRun(c, s, labels)
    decreases |labels|
  {
    labels == [] ||
    (var l := labels[0];
     && (l.Abort? ==> |s.log| > s.txs[l.request].since)
     && AbortsAreJustified(c, Next(c, s, l), labels[1..]))
  }

  lemma {:induction false} GivingUpNeedsAWrite(c: Config, s: System, labels: seq<Label>)
    requires IsRun(c, s, labels) && AbortsAreJustified(c, s, labels)
    requires forall r :: r in s.txs ==> !s.txs[r].GaveUp?
    ensures Final(c, s, labels).log == [] ==> forall r :: r in Final(c, s, labels).txs ==> !Final(c, s, labels).txs[r].GaveUp?
    decreases |labels|
  {
    if labels != [] {
      var s1 := Next(c, s, labels[0]);
      if s1.log == [] {
        GivingUpNeedsAWrite(c, s1, labels[1..]);
      } else {
        LogGrows(c, s1, labels[1..]);
      }
    }
  }

  /** If each request alone would succeed, then one that is refused, or gives up after
      justified conflicts, lost to somebody who committed: a contested slot is never
      denied to everyone. */
  lemma RefusalNeedsAWinner(c: Config, db: Db, labels: seq<Label>, s: System, r: RequestId)
    requires Reaches(c, db, labels, s) && OnlyRequests(labels)
    requires forall q | q in c.requests :: c.requests[q].Create? && c.requests[q].services != []
    requires forall q, now: int | q in c.requests :: Attempt(c, c.requests[q], db, now).Success?
    requires r in s.txs && (s.txs[r].Refused? || (s.txs[r].GaveUp? && AbortsAreJustified(c, Start(c, db), labels)))
    ensures |Winners(c, s)| > 0
  {
    if s.txs[r].Refused? {
      UntilSomebodyMoves(c, db, Start(c, db), labels);
    } else {
      GivingUpNeedsAWrite(c, Start(c, db), labels);
    }
    ReachedIsSound(c, db, labels, s);
    OnlyRequestsWrite(c, Start(c, db), labels);
    assert EntrySound(c, s, 0);
    assert s.log[0].author.value in Winners(c, s);
  }

  ghost predicate AllAuthored(s: System) {
    forall k :: 0 <= k < |s.log| ==> s.log[k].author.Some?
  }

  lemma {:induction false} OnlyRequestsWrite(c: Config, s: System, labels: seq<Label>)
    requires IsRun(c, s, labels) && OnlyRequests(labels) && AllAuthored(s)
    ensures AllAuthored(Final(c, s, labels))
    decreases |labels|
  {
    if labels != [] {
      assert labels[0] in labels;
      assert AllAuthored(Next(c, s, labels[0]));
      OnlyRequestsWrite(c, Next(c, s, labels[0]), labels[1..]);
    }
  }
}
