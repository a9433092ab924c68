/** When `refundedCents` is the sum of the succeeded refunds: what a reconciliation
    restores, which steps keep it, and what racing handlers lose. */
module RefundTotals {
  import opened Calendar
  import opened Refunds

  function SettledNow(s: System): int {
    Settled(s.ledger.rows, |s.issued|)
  }

  predicate UpToDate(s: System) {
    s.ledger.payment.refundedCents == SettledNow(s)
  }

  /** The step changes which refunds are recorded as succeeded. */
  predicate Toggles(s: System, l: Label)
    requires Enabled(s, l)
  {
    match l
    case Record(c) => s.calls[c].refund !in s.ledger.rows && s.calls[c].status == Succeeded
    case RefundEvent(_, i, status) => !(HasSucceeded(s.ledger.rows, i) <==> status == Succeeded)
    case Mirror(h) =>
      var first := s.handlers[h].listed[0];
      !(HasSucceeded(s.ledger.rows, first.0) <==> first.1 == Succeeded)
    case _ => false
  }

  lemma UpsertTogglesExactly(rows: Refunds, issued: seq<int>, i: nat, status: RefundStatus)
    requires Positive(issued) && Mirrors(rows, issued) && i < |issued|
    ensures var rows' := Upsert(rows, i, issued[i], status);
      && (Settled(rows', |issued|) == Settled(rows, |issued|) <==> (HasSucceeded(rows, i) <==> status == Succeeded))
      && (i !in rows && status == Succeeded ==> Settled(rows', |issued|) == Settled(rows, |issued|) + issued[i])
  {
    UpsertMoves(rows, issued, i, status);
  }

  lemma RecordMovesSettled(s: System, c: Id)
    requires Accounted(s) && Enabled(s, Record(c))
    ensures SettledNow(Next(s, Record(c))) == SettledNow(s) <==> !Toggles(s, Record(c))
  {
    assert CallOk(s, c);
    UpsertTogglesExactly(s.ledger.rows, s.issued, s.calls[c].refund, s.calls[c].status);
  }

  lemma IssuingMovesNothing(s: System, l: Label)
    requires Accounted(s) && Enabled(s, l) && (l.CallStripe? || l.Elsewhere?)
    ensures SettledNow(Next(s, l)) == SettledNow(s)
  {
    if l.CallStripe? {
      assert CallOk(s, l.call);
      IssuingKeepsSums(s.ledger.rows, s.issued, s.calls[l.call].key.amount);
    } else {
      IssuingKeepsSums(s.ledger.rows, s.issued, l.amount);
    }
  }

  lemma StepMovesSettled(s: System, l: Label)
    requires Accounted(s) && Enabled(s, l)
    ensures SettledNow(Next(s, l)) == SettledNow(s) <==> !Toggles(s, l)
  {
    match l
    case CallStripe(_, _) => IssuingMovesNothing(s, l);
    case Elsewhere(_) => IssuingMovesNothing(s, l);
    case Record(c) => RecordMovesSettled(s, c);
    case RefundEvent(_, i, status) => UpsertTogglesExactly(s.ledger.rows, s.issued, i, status);
    case Mirror(h) => UpsertTogglesExactly(s.ledger.rows, s.issued, s.handlers[h].listed[0].0, s.handlers[h].listed[0].1);
    case _ =>
  }

  /** The writes after which a right total is still right: every record of the endpoint, an
      upsert that toggles nothing, and a total that equals the sum. */
  lemma StepKeepsTotalExactly(s: System, l: Label)
    requires Accounted(s) && UpToDate(s) && Enabled(s, l)
    ensures UpToDate(Next(s, l)) <==>
      match l
      case RefundEvent(_, _, _) => !Toggles(s, l)
      case Mirror(_) => !Toggles(s, l)
      case WriteTotal(h) => s.handlers[h].total == SettledNow(s)
      case ChargeEvent(_, total, _) => total == SettledNow(s)
      case _ => true
  {
    StepMovesSettled(s, l);
    if l.Record? {
      assert CallOk(s, l.call);
      UpsertTogglesExactly(s.ledger.rows, s.issued, s.calls[l.call].refund, s.calls[l.call].status);
    }
  }

  // ---------- an undisturbed reconciliation ----------

  /** All of `reconcileStripeRefund` with nothing in between. */
  function Reconciled(s: System, h: Id, i: nat, status: RefundStatus): System
    requires Enabled(s, RefundEvent(h, i, status))
  {
    var s1 := Next(s, RefundEvent(h, i, status));
    if status != Succeeded then s1 else Next(Next(s1, Aggregate(h)), WriteTotal(h))
  }

  lemma ReconciledSteps(s: System, h: Id, i: nat, status: RefundStatus)
    requires Accounted(s) && Enabled(s, RefundEvent(h, i, status))
    ensures var s' := Reconciled(s, h, i, status);
      && Accounted(s')
      && s'.ledger.rows == Upsert(s.ledger.rows, i, s.issued[i], status) && s'.issued == s.issued
      && s'.handlers == s.handlers && s'.calls == s.calls && s'.keys == s.keys
      && (status == Succeeded ==> s'.ledger.payment == PaymentAfterSum(s.ledger.payment, SettledNow(s')))
      && (status != Succeeded ==> s'.ledger.payment == s.ledger.payment)
  {
    var s1 := Next(s, RefundEvent(h, i, status));
    StepKeepsAccounted(s, RefundEvent(h, i, status));
    if status == Succeeded {
      SettledIsBounded(s1);
      StepKeepsAccounted(s1, Aggregate(h));
      StepKeepsAccounted(Next(s1, Aggregate(h)), WriteTotal(h));
      assert Reconciled(s, h, i, status).handlers == s.handlers;
    }
  }

  /** A success event puts the total back to the succeeded refunds whatever happened
      before; replaying it changes nothing; and once every issued refund is on record as
      succeeded, that total is what Stripe returned to the customer. */
  lemma ReconcileRestores(s: System, h: Id, i: nat)
    requires Accounted(s) && Enabled(s, RefundEvent(h, i, Succeeded))
    ensures var s' := Reconciled(s, h, i, Succeeded);
      && UpToDate(s')
      && Enabled(s', RefundEvent(h, i, Succeeded)) && Reconciled(s', h, i, Succeeded) == s'
      && ((forall k: nat :: k < |s.issued| ==> HasSucceeded(s'.ledger.rows, k)) ==>
            s'.ledger.payment.refundedCents == Issued(s.issued))
  {
    var s' := Reconciled(s, h, i, Succeeded);
    ReconciledSteps(s, h, i, Succeeded);
    ReconciledSteps(s', h, i, Succeeded);
    assert Upsert(s'.ledger.rows, i, s.issued[i], Succeeded) == s'.ledger.rows;
    if forall k: nat :: k < |s.issued| ==> HasSucceeded(s'.ledger.rows, k) {
      AllSettled(s'.ledger.rows, s.issued, |s.issued|);
      assert s.issued[..|s.issued|] == s.issued;
    }
  }

  /** Which events a total that is right stays right under: every success, and any other
      status of a refund not yet recorded as succeeded.  A refund that fails after it
      succeeded is never subtracted. */
  lemma ReconcileMissesExactly(s: System, h: Id, i: nat, status: RefundStatus)
    requires Accounted(s) && UpToDate(s) && Enabled(s, RefundEvent(h, i, status))
    ensures UpToDate(Reconciled(s, h, i, status)) <==> status == Succeeded || !HasSucceeded(s.ledger.rows, i)
  {
    ReconciledSteps(s, h, i, status);
    UpsertMoves(s.ledger.rows, s.issued, i, status);
  }

  /** 60 of 100 cents refunded and on record. */
  function SixtyRefunded(): System {
    System(Ledger(Payment(100, 60, PARTIALLY_REFUNDED), map[0 := RefundRow(60, Succeeded)]), [60], map[], map[], map[])
  }

  lemma LateFailureIsMissed()
    ensures var s := SixtyRefunded();
      && Accounted(s) && UpToDate(s) && Enabled(s, RefundEvent(7, 0, Failed))
      && var s' := Reconciled(s, 7, 0, Failed);
         s'.ledger.payment.refundedCents == 60 && SettledNow(s') == 0
  {
    var s := SixtyRefunded();
    assert s.issued[..0] == [];
    assert Issued(s.issued) == 60 && Settled(s.ledger.rows, 0) == 0 && SettledNow(s) == 60;
    assert Settled(Reconciled(s, 7, 0, Failed).ledger.rows, 0) == 0;
    ReconcileMissesExactly(s, 7, 0, Failed);
  }

  // ---------- a disturbed one ----------

  predicate NeverToggles(s: System, labels: seq<Label>)
    requires IsRun(s, labels)
    decreases |labels|
  {
    labels == [] || (!Toggles(s, labels[0]) && NeverToggles(Next(s, labels[0]), labels[1..]))
  }

  predicate LeavesHandler(l: Label, h: Id) {
    match l
    case RefundEvent(g, _, _) => g != h
    case Aggregate(g) => g != h
    case WriteTotal(g) => g != h
    case ChargeEvent(g, _, _) => g != h
    case Mirror(g) => g != h
    case _ => true
  }

  predicate LeaveHandler(labels: seq<Label>, h: Id) {
    forall l :: l in labels ==> LeavesHandler(l, h)
  }

  predicate HasRead(s: System, h: Id, total: int) {
    h in s.handlers && s.handlers[h] == Summed(total)
  }

  lemma {:induction false} ReadIsKept(s: System, h: Id, total: int, labels: seq<Label>)
    requires Accounted(s) && HasRead(s, h, total) && IsRun(s, labels) && LeaveHandler(labels, h)
    ensures Accounted(Final(s, labels)) && HasRead(Final(s, labels), h, total)
    ensures NeverToggles(s, labels) ==> SettledNow(Final(s, labels)) == SettledNow(s)
    decreases |labels|
  {
    if labels != [] {
      assert LeavesHandler(labels[0], h);
      StepMovesSettled(s, labels[0]);
      StepKeepsAccounted(s, labels[0]);
      ReadIsKept(Next(s, labels[0]), h, total, labels[1..]);
    }
  }

  /** Whatever happens between a reconciliation's read and its write, the write is right
      exactly if the succeeded refunds add up to what they did at the read; so it is if no
      step in between toggles a success. */
  lemma LateWriteRestoresExactly(s: System, h: Id, labels: seq<Label>)
    requires Accounted(s) && HasRead(s, h, SettledNow(s)) && IsRun(s, labels) && LeaveHandler(labels, h)
    ensures Enabled(Final(s, labels), WriteTotal(h))
    ensures UpToDate(Next(Final(s, labels), WriteTotal(h))) <==> SettledNow(Final(s, labels)) == SettledNow(s)
    ensures NeverToggles(s, labels) ==> UpToDate(Next(Final(s, labels), WriteTotal(h)))
  {
    ReadIsKept(s, h, SettledNow(s), labels);
  }

  /** And one step in between makes it wrong exactly when it does. */
  lemma DisturbedReadMissesExactly(s: System, h: Id, l: Label)
    requires Accounted(s) && HasRead(s, h, SettledNow(s)) && Enabled(s, l) && LeavesHandler(l, h)
    ensures Enabled(Next(s, l), WriteTotal(h))
    ensures UpToDate(Next(Next(s, l), WriteTotal(h))) <==> !Toggles(s, l)
  {
    StepMovesSettled(s, l);
    StepMovesSettled(Next(s, l), WriteTotal(h)) by {
      StepKeepsAccounted(s, l);
    }
  }

  /** Two refunds of 30 and 50 cents, reconciled at the same time: the slower handler
      writes the sum it read before the other refund was there. */
  const LOST := [RefundEvent(8, 1, Succeeded), Aggregate(8), WriteTotal(8)]

  function ThirtyRead(): System {
    System(Ledger(Payment(100, 0, SUCCEEDED), map[0 := RefundRow(30, Succeeded)]), [30, 50], map[], map[], map[7 := Summed(30)])
  }

  lemma ThirtyReadIsSound()
    ensures var s := ThirtyRead();
      Accounted(s) && HasRead(s, 7, SettledNow(s))
  {
    var s := ThirtyRead();
    assert s.issued[..1] == [30] && [30][..0] == [];
    assert Issued([30]) == 30 && Issued(s.issued) == 80;
    assert Settled(s.ledger.rows, 1) == 30 && SettledNow(s) == 30;
    assert Recorded(s.ledger.rows, 1) == 30 && Recorded(s.ledger.rows, 2) == 30;
  }

  lemma SlowReconciliationLosesARefund()
    ensures var s := ThirtyRead();
      && Accounted(s) && HasRead(s, 7, SettledNow(s)) && IsRun(s, LOST) && Enabled(Final(s, LOST), WriteTotal(7))
      && var f := Next(Final(s, LOST), WriteTotal(7));
         f.ledger.payment.refundedCents == 30 && SettledNow(f) == 80 && f.handlers == map[]
  {
    var s := ThirtyRead();
    ThirtyReadIsSound();
    RunOfThree(s, LOST[0], LOST[1], LOST[2]);
    var rows := Next(s, LOST[0]).ledger.rows;
    assert Settled(rows, 0) == 0 && Settled(rows, 1) == 30 && Settled(rows, 2) == 80;
  }
}
