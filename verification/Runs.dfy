/** What every run of the booking protocol keeps. */
module Runs {
  import opened Prelude
  import opened Calendar
  import opened Guard
  import opened Booking
  import opened Protocol

  ghost predicate UsageWithinLimits(c: Config, usage: map<Id, int>) {
    forall p | p in c.promos && p in usage && c.promos[p].maxUsages.Some? ::
      usage[p] <= c.promos[p].maxUsages.value
  }

  /** A code may be used once more. */
  ghost predicate PromoHasRoom(c: Config, usage: map<Id, int>, promo: Option<Id>) {
    promo.Some? && promo.value in c.promos && c.promos[promo.value].maxUsages.Some? ==>
      Used(usage, promo.value) < c.promos[promo.value].maxUsages.value
  }

  /** A running transaction's snapshot, plus what was logged since, is the store. */
  ghost predicate SnapshotSound(s: System, t: Tx)
    requires t.Running?
  {
    && t.since <= |s.log|
    && ValidRows(t.snapshot.rows)
    && Faithful(t.snapshot, s.log[t.since..])
    && Replay(t.snapshot, s.log[t.since..]) == s.db
  }

  ghost predicate TxSound(s: System, r: RequestId, t: Tx) {
    match t
    case Waiting(attempt) => attempt <= LAST_ATTEMPT
    case Running(attempt, _, _, _) => attempt <= LAST_ATTEMPT && SnapshotSound(s, t)
    case Committed(id, k) => k < |s.log| && s.log[k].author == Some(r) && s.log[k].id == id
    case _ => true
  }

  /** A log entry of a request is the request's one commit, and a created id is new. */
  ghost predicate EntrySound(c: Config, s: System, k: nat)
    requires k < |s.log|
  {
    s.log[k].author.Some? ==>
      var r := s.log[k].author.value;
      && r in s.txs && r in c.requests && s.txs[r] == Committed(s.log[k].id, k)
      && (c.requests[r].Create? ==> forall j :: 0 <= j < k ==> s.log[j].id != s.log[k].id)
  }

  ghost predicate Invariant(c: Config, s: System) {
    && Consistent(c.world, s.db.rows)
    && UsageWithinLimits(c, s.db.usage)
    && (forall r | r in s.txs :: TxSound(s, r, s.txs[r]))
    && (forall k | 0 <= k < |s.log| :: EntrySound(c, s, k))
  }

  /** Logging one more write keeps every other transaction's snapshot sound. */
  lemma PushKeepsSnapshots(s: System, w: Write, t: Tx)
    requires t.Running? && SnapshotSound(s, t) && Recorded(s.db.rows, w)
    ensures SnapshotSound(Push(s, w), t)
  {
    var since := s.log[t.since..];
    ReplayPush(t.snapshot, since, w);
    assert Push(s, w).log[t.since..] == since + [w];
  }

  lemma PlainUpdateKeepsInvariant(c: Config, s: System, l: Label)
    requires ValidConfig(c) && Invariant(c, s) && Enabled(c, s, l) && (l.SetStatus? || l.Remove?)
    ensures Invariant(c, Next(c, s, l))
  {
    var s', rows := Next(c, s, l), s.db.rows;
    var w := s'.log[|s.log|];
    if l.SetStatus? {
      if l.status.Active() {
        var a := ArgsOf(c.world, l.id, rows[l.id]);
        assert ArgsOf(c.world, l.id, w.after.value) == a;
        assert Bookable(c.world, rows, a);
      }
      PutKeepsConsistent(c.world, rows, l.id, w.after.value);
    } else {
      RemoveKeepsConsistent(c.world, rows, l.id);
    }
    assert s' == Push(s, w);
    forall r | r in s'.txs
      ensures TxSound(s', r, s'.txs[r])
    {
      if s.txs[r].Running? {
        PushKeepsSnapshots(s, w, s.txs[r]);
      }
    }
    forall k | 0 <= k < |s'.log|
      ensures EntrySound(c, s', k)
    {
      if k < |s.log| {
        assert EntrySound(c, s, k);
      }
    }
  }

  /** The heart of the protocol: whatever happened since the snapshot, a slot that was
      free there and was not touched since is free now. */
  lemma UntouchedSinceSnapshot(c: Config, s: System, t: Tx, e: Effect, newId: Id)
    requires ValidWorld(c.world) && t.Running? && SnapshotSound(s, t)
    requires e.args.startsAt < e.args.endsAt && Describes(c.world, e) && Bookable(c.world, t.snapshot.rows, e.args)
    requires forall k :: t.since <= k < |s.log| ==> !Clash(c, e, s.log[k])
    requires e.target == None ==> newId !in s.db.rows
    ensures Bookable(c.world, s.db.rows, ArgsOf(c.world, TargetId(e, newId), e.row))
    ensures e.target == None && e.row.promo.Some? ==>
      Used(s.db.usage, e.row.promo.value) == Used(t.snapshot.usage, e.row.promo.value)
  {
    var since := s.log[t.since..];
    forall k | 0 <= k < |since|
      ensures !Clash(c, e, since[k])
    {
      assert since[k] == s.log[t.since + k];
    }
    UnclashedStandsNow(c, e, t.snapshot, since);
    FreeForRow(c.world, s.db.rows, e, TargetId(e, newId));
  }

  /** So a commit whose snapshot may be stale writes a row that fits among the
      appointments stored now, and a promo counter that is still below its limit. */
  lemma CommittedRowFits(c: Config, s: System, r: RequestId, newId: Id)
    requires ValidConfig(c) && Invariant(c, s) && Enabled(c, s, Commit(r, newId))
    ensures var e := Outcome(c, s, r).value;
      && Bookable(c.world, s.db.rows, ArgsOf(c.world, TargetId(e, newId), e.row))
      && e.row.startsAt < e.row.endsAt
      && (e.target == None ==> PromoHasRoom(c, s.db.usage, e.row.promo))
  {
    var e, t := Outcome(c, s, r).value, s.txs[r];
    assert TxSound(s, r, t);
    AcceptedEffectFits(c, c.requests[r], t.snapshot, t.now);
    EffectShape(c, c.requests[r], t.snapshot, t.now);
    UntouchedSinceSnapshot(c, s, t, e, newId);
  }

  /** The counter the transaction locked is the one it checked against the limit. */
  lemma CommitKeepsUsage(c: Config, s: System, w: Write)
    requires UsageWithinLimits(c, s.db.usage) && PromoHasRoom(c, s.db.usage, w.promo)
    ensures UsageWithinLimits(c, ApplyWrite(s.db, w).usage)
  {
  }

  lemma CommitKeepsTxs(c: Config, s: System, r: RequestId, newId: Id, q: RequestId)
    requires ValidConfig(c) && Invariant(c, s) && Enabled(c, s, Commit(r, newId)) && q in s.txs
    ensures TxSound(Next(c, s, Commit(r, newId)), q, Next(c, s, Commit(r, newId)).txs[q])
  {
    var w := WriteOf(s, r, Outcome(c, s, r).value, newId);
    CommittedRowFits(c, s, r, newId);
    assert TxSound(s, q, s.txs[q]);
    if q != r && s.txs[q].Running? {
      PushKeepsSnapshots(s, w, s.txs[q]);
    }
  }

  lemma CommitKeepsEntries(c: Config, s: System, r: RequestId, newId: Id, k: nat)
    requires ValidConfig(c) && Invariant(c, s) && Enabled(c, s, Commit(r, newId)) && k <= |s.log|
    ensures EntrySound(c, Next(c, s, Commit(r, newId)), k)
  {
    if k < |s.log| {
      assert EntrySound(c, s, k);
    } else {
      AcceptedEffectFits(c, c.requests[r], s.txs[r].snapshot, s.txs[r].now) by {
        assert TxSound(s, r, s.txs[r]);
      }
    }
  }

  lemma CommitKeepsInvariant(c: Config, s: System, r: RequestId, newId: Id)
    requires ValidConfig(c) && Invariant(c, s) && Enabled(c, s, Commit(r, newId))
    ensures Invariant(c, Next(c, s, Commit(r, newId)))
  {
    var s', e := Next(c, s, Commit(r, newId)), Outcome(c, s, r).value;
    assert Consistent(c.world, s'.db.rows) by {
      CommittedRowFits(c, s, r, newId);
      PutKeepsConsistent(c.world, s.db.rows, TargetId(e, newId), e.row);
    }
    assert UsageWithinLimits(c, s'.db.usage) by {
      CommittedRowFits(c, s, r, newId);
      CommitKeepsUsage(c, s, WriteOf(s, r, e, newId));
    }
    forall q | q in s'.txs
      ensures TxSound(s', q, s'.txs[q])
    {
      CommitKeepsTxs(c, s, r, newId, q);
    }
    forall k | 0 <= k < |s'.log|
      ensures EntrySound(c, s', k)
    {
      CommitKeepsEntries(c, s, r, newId, k);
    }
  }

  lemma StepKeepsInvariant(c: Config, s: System, l: Label)
    requires ValidConfig(c) && Invariant(c, s) && Enabled(c, s, l)
    ensures Invariant(c, Next(c, s, l))
  {
    match l
    case Commit(r, newId) => CommitKeepsInvariant(c, s, r, newId);
    case SetStatus(_, _) => PlainUpdateKeepsInvariant(c, s, l);
    case Remove(_) => PlainUpdateKeepsInvariant(c, s, l);
    case _ =>
      var s' := Next(c, s, l);
      forall k | 0 <= k < |s'.log|
        ensures EntrySound(c, s', k)
      {
        assert EntrySound(c, s, k);
      }
      assert s.log[|s.log|..] == [];
      forall q | q in s'.txs
        ensures TxSound(s', q, s'.txs[q])
      {
        assert q in s.txs && TxSound(s, q, s.txs[q]);
      }
  }

  lemma {:induction false} RunKeepsInvariant(c: Config, s: System, labels: seq<Label>)
    requires ValidConfig(c) && Invariant(c, s) && IsRun(c, s, labels)
    ensures Invariant(c, Final(c, s, labels))
    decreases |labels|
  {
    if labels != [] {
      StepKeepsInvariant(c, s, labels[0]);
      RunKeepsInvariant(c, Next(c, s, labels[0]), labels[1..]);
    }
  }
}
