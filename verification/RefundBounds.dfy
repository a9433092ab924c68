/** How far `refundedCents` can go: within the refunds on record, except when the endpoint
    records a refund that a `charge.refunded` handler has counted but not yet mirrored. */
module RefundBounds {
  import opened Calendar
  import opened Refunds

  // ---------- refunds on record or about to be ----------

  predicate StillLists(h: Handler, i: nat) {
    h.Mirroring? && exists k :: 0 <= k < |h.listed| && h.listed[k].0 == i
  }

  /** Some handler has taken i into the total and still has to mirror it. */
  predicate IsPromised(handlers: map<Id, Handler>, i: nat) {
    exists h :: h in handlers && StillLists(handlers[h], i)
  }

  predicate IsKnown(s: System, i: nat) {
    i in s.ledger.rows || IsPromised(s.handlers, i)
  }

  function Known(s: System): set<nat> {
    set i: nat | i < |s.issued| && IsKnown(s, i)
  }

  function Covered(s: System): int {
    Listed(s.issued, Known(s))
  }

  /** What could still be added to the total without exceeding the known refunds. */
  function Slack(s: System): int {
    Covered(s) - s.ledger.payment.refundedCents
  }

  predicate Bounded(s: System) {
    Slack(s) >= 0
  }

  predicate NothingPromised(s: System) {
    forall h :: h in s.handlers ==> !s.handlers[h].Mirroring?
  }

  /** Known refunds were issued; with no handler halfway they are the recorded ones. */
  lemma CoveredIsIssued(s: System)
    requires Accounted(s)
    ensures Covered(s) <= Issued(s.issued) <= s.ledger.payment.amountCents
    ensures NothingPromised(s) ==> Covered(s) == Recorded(s.ledger.rows, |s.issued|)
  {
    ListedGrows(s.issued, Known(s), Known(s));
    ListedRows(s.ledger.rows, s.issued, |s.issued|);
    assert s.issued[..|s.issued|] == s.issued;
    if NothingPromised(s) {
      assert Known(s) == s.ledger.rows.Keys;
    }
  }

  // ---------- what each step does to the known refunds ----------

  /** The refunds a step makes known. */
  function NewlyKnown(s: System, l: Label): set<nat>
    requires Enabled(s, l)
  {
    match l
    case Record(c) => {s.calls[c].refund}
    case RefundEvent(_, i, _) => {i}
    case ChargeEvent(_, _, listed) => IdsOf(listed)
    case _ => {}
  }

  lemma PromisedElsewhere(handlers: map<Id, Handler>, h: Id, to: Handler, i: nat)
    requires h !in handlers || !handlers[h].Mirroring?
    ensures IsPromised(handlers[h := to], i) <==> IsPromised(handlers, i) || StillLists(to, i)
    ensures IsPromised(handlers - {h}, i) <==> IsPromised(handlers, i)
  {
    if g :| g in handlers && StillLists(handlers[g], i) {
      assert handlers[h := to][g] == handlers[g] && (handlers - {h})[g] == handlers[g];
    }
    assert handlers[h := to][h] == to;
  }

  lemma PromisedAfterMirror(handlers: map<Id, Handler>, h: Id, i: nat)
    requires h in handlers && handlers[h].Mirroring? && handlers[h].listed != []
    ensures var listed := handlers[h].listed;
      var handlers' := if |listed| == 1 then handlers - {h} else handlers[h := Mirroring(listed[1..])];
      IsPromised(handlers, i) <==> IsPromised(handlers', i) || i == listed[0].0
  {
    var listed := handlers[h].listed;
    var handlers' := if |listed| == 1 then handlers - {h} else handlers[h := Mirroring(listed[1..])];
    if g :| g in handlers && StillLists(handlers[g], i) {
      if g != h {
        assert g in handlers' && handlers'[g] == handlers[g];
      } else if i != listed[0].0 {
        var k :| 0 <= k < |listed| && listed[k].0 == i;
        assert listed[1..][k - 1].0 == i;
        assert StillLists(handlers'[h], i);
      }
    }
    if g :| g in handlers' && StillLists(handlers'[g], i) {
      if g == h {
        var k :| 0 <= k < |listed[1..]| && listed[1..][k].0 == i;
        assert listed[k + 1].0 == i;
      }
      assert StillLists(handlers[g], i);
    }
    assert StillLists(handlers[h], listed[0].0);
  }

  lemma KnownAfter(s: System, l: Label, i: nat)
    requires Accounted(s) && Enabled(s, l)
    ensures IsKnown(Next(s, l), i) <==> IsKnown(s, i) || i in NewlyKnown(s, l)
  {
    match l
    case Mirror(h) => PromisedAfterMirror(s.handlers, h, i);
    case RefundEvent(h, _, _) => PromisedElsewhere(s.handlers, h, Upserted, i);
    case Aggregate(h) => PromisedElsewhere(s.handlers, h, Next(s, l).handlers[h], i);
    case WriteTotal(h) => PromisedElsewhere(s.handlers, h, Upserted, i);
    case ChargeEvent(h, _, listed) => PromisedElsewhere(s.handlers, h, Mirroring(listed), i);
    case _ =>
  }

  lemma KnownIsIssued(s: System, i: nat)
    requires Accounted(s) && IsKnown(s, i)
    ensures i < |s.issued|
  {
    if i !in s.ledger.rows {
      var h :| h in s.handlers && StillLists(s.handlers[h], i);
      assert HandlerOk(s, h);
    }
  }

  lemma NewlyKnownIsIssued(s: System, l: Label, i: nat)
    requires Accounted(s) && Enabled(s, l) && i in NewlyKnown(s, l)
    ensures i < |s.issued|
  {
    if l.Record? {
      assert CallOk(s, l.call);
    }
  }

  lemma KnownSetAfter(s: System, l: Label)
    requires Accounted(s) && Enabled(s, l)
    ensures Known(Next(s, l)) == Known(s) + NewlyKnown(s, l)
  {
    StepGrows(s, l);
    forall i: nat
      ensures i in Known(Next(s, l)) <==> i in Known(s) + NewlyKnown(s, l)
    {
      KnownAfter(s, l, i);
      if IsKnown(s, i) {
        KnownIsIssued(s, i);
      } else if i in NewlyKnown(s, l) {
        NewlyKnownIsIssued(s, l, i);
      }
    }
  }

  lemma ListedOfLonger(issued: seq<int>, more: int, ids: set<nat>)
    requires |issued| !in ids
    ensures Listed(issued + [more], ids) == Listed(issued, ids)
  {
    assert (issued + [more])[..|issued|] == issued;
  }

  /** New refunds are not known, so only newly known ones move the cover. */
  lemma CoveredAfter(s: System, l: Label)
    requires Accounted(s) && Enabled(s, l)
    ensures Covered(Next(s, l)) == Listed(s.issued, Known(s) + NewlyKnown(s, l))
  {
    KnownSetAfter(s, l);
    var s' := Next(s, l);
    if s'.issued != s.issued {
      assert |s.issued| !in Known(s) + NewlyKnown(s, l);
      ListedOfLonger(s.issued, s'.issued[|s.issued|], Known(s) + NewlyKnown(s, l));
    }
  }

  // ---------- the step that breaks the bound ----------

  /** Writes that set the total instead of adding to it. */
  predicate SetsTotal(l: Label) {
    l.WriteTotal? || l.ChargeEvent?
  }

  /** The endpoint adds a succeeded refund that is not on record but already counted by a
      `charge.refunded` handler between its writes. */
  predicate Doubles(s: System, l: Label)
    requires Enabled(s, l)
  {
    && l.Record? && s.calls[l.call].status == Succeeded
    && s.calls[l.call].refund !in s.ledger.rows && IsPromised(s.handlers, s.calls[l.call].refund)
  }

  function DoubledBy(s: System, l: Label): int
    requires Enabled(s, l)
  {
    if Doubles(s, l) then s.calls[l.call].key.amount else 0
  }

  /** Refunds put on record without adding them to the total. */
  function GainedBy(s: System, l: Label): int
    requires Enabled(s, l)
  {
    match l
    case Record(c) =>
      if s.calls[c].status != Succeeded && !IsKnown(s, s.calls[c].refund) then s.calls[c].key.amount else 0
    case RefundEvent(_, i, _) => if IsKnown(s, i) then 0 else s.issued[i]
    case _ => 0
  }

  lemma SlackAfter(s: System, l: Label)
    requires Accounted(s) && Enabled(s, l) && !SetsTotal(l)
    ensures Slack(Next(s, l)) == Slack(s) + GainedBy(s, l) - DoubledBy(s, l)
  {
    CoveredAfter(s, l);
    assert Known(s) + {} == Known(s);
    match l
    case Record(c) =>
      assert CallOk(s, c);
      ListedOneMore(s.issued, Known(s), s.calls[c].refund);
    case RefundEvent(_, i, _) => ListedOneMore(s.issued, Known(s), i);
    case _ =>
  }

  /** Setting the total restores the bound, whatever was wrong before. */
  lemma SettingRestores(s: System, l: Label)
    requires Accounted(s) && Enabled(s, l) && SetsTotal(l)
    ensures Bounded(Next(s, l))
  {
    CoveredAfter(s, l);
    if l.WriteTotal? {
      assert HandlerOk(s, l.handler);
      assert Known(s) + {} == Known(s);
      ListedRows(s.ledger.rows, s.issued, |s.issued|);
      assert s.issued[..|s.issued|] == s.issued;
      assert s.ledger.rows.Keys <= Known(s);
      ListedGrows(s.issued, s.ledger.rows.Keys, Known(s));
    } else {
      ListedGrows(s.issued, IdsOf(l.listed), Known(s) + IdsOf(l.listed));
    }
  }

  /** A step keeps the bound exactly when it does not double a refund, or doubles one that
      still fits into what the total left out. */
  lemma StepKeepsBoundExactly(s: System, l: Label)
    requires Accounted(s) && Bounded(s) && Enabled(s, l)
    ensures Bounded(Next(s, l)) <==> !Doubles(s, l) || s.calls[l.call].key.amount <= Slack(s)
  {
    if SetsTotal(l) {
      SettingRestores(s, l);
    } else {
      SlackAfter(s, l);
      if l.RefundEvent? {
        assert s.issued[l.refund] >= 1;
      } else if l.Record? {
        assert CallOk(s, l.call);
      }
    }
  }

  /** From within the bound, a step takes the total past the charge, or past what Stripe
      issued, exactly if it doubles a refund for which neither has room. */
  lemma StepStaysWithinChargeExactly(s: System, l: Label)
    requires Accounted(s) && Bounded(s) && Enabled(s, l)
    ensures var p, s' := s.ledger.payment, Next(s, l);
      && (s'.ledger.payment.refundedCents <= s'.ledger.payment.amountCents <==>
            !Doubles(s, l) || p.refundedCents + s.calls[l.call].key.amount <= p.amountCents)
      && (s'.ledger.payment.refundedCents <= Issued(s'.issued) <==>
            !Doubles(s, l) || p.refundedCents + s.calls[l.call].key.amount <= Issued(s.issued))
  {
    StepKeepsBoundExactly(s, l);
    StepKeepsAccounted(s, l);
    CoveredIsIssued(Next(s, l));
  }

  // ---------- over runs ----------

  predicate NeverDoubles(s: System, labels: seq<Label>)
    requires IsRun(s, labels)
    decreases |labels|
  {
    labels == [] || (!Doubles(s, labels[0]) && NeverDoubles(Next(s, labels[0]), labels[1..]))
  }

  /** Over every order, repetition and staleness of events, with endpoint calls and webhook
      handlers between any two of their writes: as long as no refund is doubled, the total
      stays within what is known of the refunds, hence within what Stripe issued and the
      payment was worth, and within the recorded refunds once no handler is halfway. */
  lemma {:induction false} RefundsStayWithinRecords(s: System, labels: seq<Label>)
    requires Accounted(s) && Bounded(s) && IsRun(s, labels) && NeverDoubles(s, labels)
    ensures var f := Final(s, labels);
      && 0 <= f.ledger.payment.refundedCents <= Issued(f.issued) <= f.ledger.payment.amountCents
      && (NothingPromised(f) ==> f.ledger.payment.refundedCents <= Recorded(f.ledger.rows, |f.issued|))
      && Bounded(f)
    decreases |labels|
  {
    if labels == [] {
      CoveredIsIssued(s);
    } else {
      StepKeepsBoundExactly(s, labels[0]);
      StepKeepsAccounted(s, labels[0]);
      RefundsStayWithinRecords(Next(s, labels[0]), labels[1..]);
    }
  }

  predicate OnlyAdds(labels: seq<Label>) {
    forall l :: l in labels ==> !SetsTotal(l)
  }

  function Doubled(s: System, labels: seq<Label>): int
    requires IsRun(s, labels)
    decreases |labels|
  {
    if labels == [] then 0 else DoubledBy(s, labels[0]) + Doubled(Next(s, labels[0]), labels[1..])
  }

  function Gained(s: System, labels: seq<Label>): int
    requires IsRun(s, labels)
    decreases |labels|
  {
    if labels == [] then 0 else GainedBy(s, labels[0]) + Gained(Next(s, labels[0]), labels[1..])
  }

  lemma {:induction false} SlackIsExact(s: System, labels: seq<Label>)
    requires Accounted(s) && IsRun(s, labels) && OnlyAdds(labels)
    ensures Slack(Final(s, labels)) == Slack(s) + Gained(s, labels) - Doubled(s, labels)
    decreases |labels|
  {
    if labels != [] {
      assert labels[0] in labels;
      SlackAfter(s, labels[0]);
      StepKeepsAccounted(s, labels[0]);
      SlackIsExact(Next(s, labels[0]), labels[1..]);
    }
  }

  /** From the last write that set the total on, the bound holds exactly when no more is
      doubled than that write left out and later records added on top. */
  lemma BoundSurvivesExactly(s: System, setting: Label, labels: seq<Label>)
    requires Accounted(s) && Enabled(s, setting) && SetsTotal(setting)
    requires IsRun(Next(s, setting), labels) && OnlyAdds(labels)
    ensures var s1 := Next(s, setting);
      && Slack(s1) >= 0
      && (Bounded(Final(s1, labels)) <==> Doubled(s1, labels) <= Slack(s1) + Gained(s1, labels))
  {
    SettingRestores(s, setting);
    StepKeepsAccounted(s, setting);
    SlackIsExact(Next(s, setting), labels);
  }

  lemma {:induction false} DoubledIsNone(s: System, labels: seq<Label>)
    requires Accounted(s) && IsRun(s, labels)
    ensures Doubled(s, labels) >= 0 && (Doubled(s, labels) == 0 <==> NeverDoubles(s, labels))
    decreases |labels|
  {
    if labels != [] {
      if labels[0].Record? {
        assert CallOk(s, labels[0].call);
        assert s.issued[s.calls[labels[0].call].refund] >= 1;
      }
      StepKeepsAccounted(s, labels[0]);
      DoubledIsNone(Next(s, labels[0]), labels[1..]);
    }
  }

  /** When the event is up to date, so that its total leaves nothing out, and nothing new
      is recorded meanwhile, the bound survives the handler exactly when no endpoint call
      records one of the refunds still to mirror. */
  lemma FreshEventSurvivesExactly(s: System, h: Id, total: int, listed: seq<(nat, RefundStatus)>, labels: seq<Label>)
    requires Accounted(s) && Enabled(s, ChargeEvent(h, total, listed))
    requires var s1 := Next(s, ChargeEvent(h, total, listed));
      Slack(s1) == 0 && IsRun(s1, labels) && OnlyAdds(labels) && Gained(s1, labels) == 0
    ensures var s1 := Next(s, ChargeEvent(h, total, listed));
      Bounded(Final(s1, labels)) <==> NeverDoubles(s1, labels)
  {
    var s1 := Next(s, ChargeEvent(h, total, listed));
    BoundSurvivesExactly(s, ChargeEvent(h, total, listed), labels);
    StepKeepsAccounted(s, ChargeEvent(h, total, listed));
    DoubledIsNone(s1, labels);
  }

  // ---------- the race ----------

  /** A settled payment, one issued refund and its endpoint call about to record it. */
  function AboutToRecord(amountCents: int, refund: int): System {
    var key := Key(refund, 0, "");
    System(Ledger(Payment(amountCents, 0, SUCCEEDED), map[]), [refund], map[key := 0], map[1 := Charged(key, 0, Succeeded)], map[])
  }

  lemma AboutToRecordIsSound()
    ensures var s := AboutToRecord(100, 60);
      Accounted(s) && Bounded(s) && Listed(s.issued, {0}) == 60
  {
    var s := AboutToRecord(100, 60);
    assert s.issued[..0] == [];
    assert Issued(s.issued) == 60 && Listed(s.issued, {0}) == 60;
    assert Known(s) == {};
    ListedNone(s.issued);
  }

  const RACE := [ChargeEvent(7, 60, [(0, Succeeded)]), Record(1), Mirror(7)]

  /** The webhook writes the total, the endpoint adds the same 60 cents, the webhook mirrors
      the refund: 120 of 100 cents are reported as refunded, with 60 on record. */
  lemma RaceCountsARefundTwice()
    ensures var s := AboutToRecord(100, 60);
      && Accounted(s) && Bounded(s) && IsRun(s, RACE)
      && Final(s, RACE).ledger.payment.refundedCents == 120
      && Final(s, RACE).handlers == map[] && Recorded(Final(s, RACE).ledger.rows, 1) == 60
  {
    var s := AboutToRecord(100, 60);
    AboutToRecordIsSound();
    assert IdsOf([(0, Succeeded)]) == {0} by {
      assert [(0, Succeeded)][0].0 == 0;
    }
    var s1 := Next(s, RACE[0]);
    var s2 := Next(s1, RACE[1]);
    var s3 := Next(s2, RACE[2]);
    RunOfThree(s, RACE[0], RACE[1], RACE[2]);
  }

  // ---------- the status ----------

  predicate StatusAgrees(p: Payment) {
    if p.refundedCents > 0
    then p.status == if p.refundedCents >= p.amountCents then REFUNDED else PARTIALLY_REFUNDED
    else p.status != REFUNDED && p.status != PARTIALLY_REFUNDED
  }

  /** A step keeps status and total in agreement unless it is a reconciliation that read an
      empty sum, which happens exactly when no refund is recorded as succeeded. */
  lemma StepKeepsStatusExactly(s: System, l: Label)
    requires Accounted(s) && StatusAgrees(s.ledger.payment) && Enabled(s, l)
    ensures StatusAgrees(Next(s, l).ledger.payment) <==> !(l.WriteTotal? && s.handlers[l.handler].total == 0)
  {
    if l.WriteTotal? {
      assert HandlerOk(s, l.handler);
    } else if l.Record? {
      assert CallOk(s, l.call);
    }
  }

  predicate SomeSucceeded(s: System) {
    exists i :: i in s.ledger.rows && s.ledger.rows[i].status == Succeeded
  }

  lemma {:induction false} NothingSettled(rows: Refunds, n: nat)
    requires forall i :: i in rows ==> rows[i].status != Succeeded
    ensures Settled(rows, n) == 0
  {
    if n > 0 {
      NothingSettled(rows, n - 1);
    }
  }

  lemma {:induction false} OneSettled(rows: Refunds, issued: seq<int>, i: nat, n: nat)
    requires Positive(issued) && Mirrors(rows, issued) && i < n <= |issued|
    requires i in rows && rows[i].status == Succeeded
    ensures Settled(rows, n) >= rows[i].amount
  {
    SumsAreOrdered(rows, issued, n - 1);
    if i < n - 1 {
      OneSettled(rows, issued, i, n - 1);
    }
  }

  lemma EmptySumExactly(s: System, h: Id)
    requires Accounted(s) && Enabled(s, Aggregate(h))
    ensures Next(s, Aggregate(h)).handlers[h].total == 0 <==> !SomeSucceeded(s)
  {
    SettledIsBounded(s);
    if i: nat :| i in s.ledger.rows && s.ledger.rows[i].status == Succeeded {
      OneSettled(s.ledger.rows, s.issued, i, |s.issued|);
    } else {
      NothingSettled(s.ledger.rows, |s.issued|);
    }
  }

  /** A later event that reports a recorded success as something else. */
  predicate TakesBack(s: System, l: Label)
    requires Enabled(s, l)
  {
    match l
    case RefundEvent(_, i, status) => status != Succeeded && i in s.ledger.rows && s.ledger.rows[i].status == Succeeded
    case Mirror(h) =>
      var first := s.handlers[h].listed[0];
      first.1 != Succeeded && first.0 in s.ledger.rows && s.ledger.rows[first.0].status == Succeeded
    case _ => false
  }

  predicate NeverTakesBack(s: System, labels: seq<Label>)
    requires IsRun(s, labels)
    decreases |labels|
  {
    labels == [] || (!TakesBack(s, labels[0]) && NeverTakesBack(Next(s, labels[0]), labels[1..]))
  }

  /** Reconciliations on their way have a success to add up. */
  ghost predicate SumsAreNonempty(s: System) {
    forall h :: h in s.handlers ==>
      (s.handlers[h].Upserted? ==> SomeSucceeded(s)) && (s.handlers[h].Summed? ==> s.handlers[h].total > 0)
  }

  lemma StepKeepsSuccess(s: System, l: Label)
    requires Enabled(s, l) && !TakesBack(s, l) && SomeSucceeded(s)
    ensures SomeSucceeded(Next(s, l))
  {
    var i :| i in s.ledger.rows && s.ledger.rows[i].status == Succeeded;
    assert i in Next(s, l).ledger.rows && Next(s, l).ledger.rows[i].status == Succeeded;
  }

  lemma StepKeepsSumsNonempty(s: System, l: Label)
    requires Accounted(s) && SumsAreNonempty(s) && Enabled(s, l) && !TakesBack(s, l)
    ensures SumsAreNonempty(Next(s, l))
  {
    if SomeSucceeded(s) {
      StepKeepsSuccess(s, l);
    }
    if l.Aggregate? {
      EmptySumExactly(s, l.handler);
      StepKeepsHandlers(s, l, l.handler);
    } else if l.RefundEvent? && l.status == Succeeded {
      assert Next(s, l).ledger.rows[l.refund].status == Succeeded;
    }
  }

  /** In every run without a success taken back, the status says how much is refunded. */
  lemma {:induction false} StatusAlwaysAgrees(s: System, labels: seq<Label>)
    requires Accounted(s) && SumsAreNonempty(s) && StatusAgrees(s.ledger.payment)
    requires IsRun(s, labels) && NeverTakesBack(s, labels)
    ensures StatusAgrees(Final(s, labels).ledger.payment)
    decreases |labels|
  {
    if labels != [] {
      StepKeepsStatusExactly(s, labels[0]);
      StepKeepsSumsNonempty(s, labels[0]);
      StepKeepsAccounted(s, labels[0]);
      StatusAlwaysAgrees(Next(s, labels[0]), labels[1..]);
    }
  }

  const STALE := [RefundEvent(7, 0, Succeeded), RefundEvent(8, 0, Pending), Aggregate(7), WriteTotal(7)]

  /** A stale event between a reconciliation's two statements: nothing is refunded, and the
      payment says partially refunded. */
  lemma StaleEventBreaksTheStatus()
    ensures var s := AboutToRecord(100, 60);
      && Accounted(s) && StatusAgrees(s.ledger.payment) && IsRun(s, STALE)
      && !StatusAgrees(Final(s, STALE).ledger.payment)
  {
    var s := AboutToRecord(100, 60);
    AboutToRecordIsSound();
    var s1 := Next(s, STALE[0]);
    var s2 := Next(s1, STALE[1]);
    var s3 := Next(s2, STALE[2]);
    NothingSettled(s2.ledger.rows, |s2.issued|);
    var s4 := Next(s3, STALE[3]);
    RunOfThree(s1, STALE[1], STALE[2], STALE[3]);
    RunCons(s, STALE[0], [STALE[1], STALE[2], STALE[3]]);
    assert STALE == [STALE[0]] + [STALE[1], STALE[2], STALE[3]];
  }

  /** A `charge.refunded` event with nothing refunded resets the total but keeps the old
      status, so the two agree exactly when there was nothing to reset. */
  lemma ZeroTotalAgreesExactly(p: Payment, total: int)
    requires StatusAgrees(p) && p.amountCents > 0 && total >= 0
    ensures StatusAgrees(PaymentAfterCharge(p, total)) <==> total > 0 || p.refundedCents <= 0
    ensures var half := Payment(100, 50, PARTIALLY_REFUNDED);
      StatusAgrees(half) && !StatusAgrees(PaymentAfterCharge(half, 0))
  {
  }
}
