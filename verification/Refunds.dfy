/** Refunds of one payment: the owner's endpoint (read, call Stripe, record), refunds
    made elsewhere, and webhook events that may be stale, duplicated or out of order.
    Only the endpoint's last stage is a transaction; the webhook handlers make their
    writes one by one, and anything may happen in between.  Stripe numbers the refunds it
    issues 0, 1, 2, ... and never issues more than the charge. */
module Refunds {
  import opened Prelude
  import opened Calendar

  datatype PaymentStatus = PENDING | SUCCEEDED | FAILED | CANCELED | REFUNDED | PARTIALLY_REFUNDED

  datatype Payment = Payment(amountCents: int, refundedCents: int, status: PaymentStatus)

  datatype RefundStatus = Pending | Succeeded | Failed

  datatype RefundRow = RefundRow(amount: int, status: RefundStatus)

  type Refunds = map<nat, RefundRow>

  datatype Ledger = Ledger(payment: Payment, rows: Refunds)

  // ---------- sums over the refund table ----------

  /** Amounts of all recorded refunds numbered below n. */
  function Recorded(rows: Refunds, n: nat): int {
    if n == 0 then 0 else Recorded(rows, n - 1) + if n - 1 in rows then rows[n - 1].amount else 0
  }

  /** Amounts of the refunds recorded as succeeded: the SQL aggregate. */
  function Settled(rows: Refunds, n: nat): int {
    if n == 0 then 0
    else Settled(rows, n - 1) + if n - 1 in rows && rows[n - 1].status == Succeeded then rows[n - 1].amount else 0
  }

  function Issued(issued: seq<int>): int {
    if issued == [] then 0 else Issued(issued[..|issued| - 1]) + issued[|issued| - 1]
  }

  /** Amounts of the refunds an event lists, each counted once. */
  function Listed(issued: seq<int>, ids: set<nat>): int {
    if issued == [] then 0
    else Listed(issued[..|issued| - 1], ids) + if |issued| - 1 in ids then issued[|issued| - 1] else 0
  }

  predicate Positive(issued: seq<int>) {
    forall i :: 0 <= i < |issued| ==> issued[i] >= 1
  }

  /** The table mirrors refunds Stripe issued. */
  predicate Mirrors(rows: Refunds, issued: seq<int>) {
    forall i :: i in rows ==> i < |issued| && rows[i].amount == issued[i]
  }

  lemma {:induction false} SumsAreOrdered(rows: Refunds, issued: seq<int>, n: nat)
    requires Positive(issued) && Mirrors(rows, issued) && n <= |issued|
    ensures 0 <= Settled(rows, n) <= Recorded(rows, n) <= Issued(issued[..n])
  {
    if n > 0 {
      SumsAreOrdered(rows, issued, n - 1);
      assert issued[..n][..n - 1] == issued[..n - 1];
    }
  }

  lemma {:induction false} ListedGrows(issued: seq<int>, a: set<nat>, b: set<nat>)
    requires Positive(issued) && a <= b
    ensures 0 <= Listed(issued, a) <= Listed(issued, b) <= Issued(issued)
  {
    if issued != [] {
      ListedGrows(issued[..|issued| - 1], a, b);
    }
  }

  lemma {:induction false} ListedOneMore(issued: seq<int>, ids: set<nat>, i: nat)
    ensures Listed(issued, ids + {i}) == Listed(issued, ids) + if i < |issued| && i !in ids then issued[i] else 0
  {
    if issued != [] {
      ListedOneMore(issued[..|issued| - 1], ids, i);
    }
  }

  lemma {:induction false} ListedNone(issued: seq<int>)
    ensures Listed(issued, {}) == 0
  {
    if issued != [] {
      ListedNone(issued[..|issued| - 1]);
    }
  }

  lemma {:induction false} ListedRows(rows: Refunds, issued: seq<int>, n: nat)
    requires Mirrors(rows, issued) && n <= |issued|
    ensures Listed(issued[..n], rows.Keys) == Recorded(rows, n)
  {
    if n > 0 {
      ListedRows(rows, issued, n - 1);
      assert issued[..n][..n - 1] == issued[..n - 1];
    }
  }

  predicate HasSucceeded(rows: Refunds, i: nat) {
    i in rows && rows[i].status == Succeeded
  }

  lemma {:induction false} AllSettled(rows: Refunds, issued: seq<int>, n: nat)
    requires Mirrors(rows, issued) && n <= |issued|
    requires forall i: nat :: i < n ==> HasSucceeded(rows, i)
    ensures Settled(rows, n) == Issued(issued[..n])
  {
    if n > 0 {
      assert HasSucceeded(rows, n - 1);
      AllSettled(rows, issued, n - 1);
      assert issued[..n][..n - 1] == issued[..n - 1];
    }
  }

  function Counts(rows: Refunds, i: nat): int {
    if i in rows && rows[i].status == Succeeded then rows[i].amount else 0
  }

  function RowAmount(rows: Refunds, i: nat): int {
    if i in rows then rows[i].amount else 0
  }

  /** Writing one row moves the sums by that row only. */
  lemma {:induction false} OneRowMoves(rows: Refunds, i: nat, row: RefundRow, n: nat)
    ensures Recorded(rows[i := row], n) == Recorded(rows, n) + if i < n then row.amount - RowAmount(rows, i) else 0
    ensures Settled(rows[i := row], n) == Settled(rows, n) + if i < n then Counts(rows[i := row], i) - Counts(rows, i) else 0
  {
    if n > 0 {
      OneRowMoves(rows, i, row, n - 1);
    }
  }

  // ---------- single writes ----------

  /** Insert the refund if it is new, otherwise overwrite its status only. */
  function Upsert(rows: Refunds, i: nat, amount: int, status: RefundStatus): Refunds {
    rows[i := RefundRow(if i in rows then rows[i].amount else amount, status)]
  }

  /** The last write of `reconcileStripeRefund`, with the sum it has read. */
  function PaymentAfterSum(p: Payment, total: int): Payment {
    p.(refundedCents := total, status := if total >= p.amountCents then REFUNDED else PARTIALLY_REFUNDED)
  }

  /** The first write of `charge.refunded`: the total is taken from the event. */
  function PaymentAfterCharge(p: Payment, amountRefunded: int): Payment {
    p.(refundedCents := amountRefunded,
       status := if amountRefunded >= p.amountCents then REFUNDED
                 else if amountRefunded > 0 then PARTIALLY_REFUNDED else p.status)
  }

  /** The transaction at the end of `refundPayment`: nothing if a webhook was faster. */
  function AfterRecord(l: Ledger, i: nat, amount: int, status: RefundStatus): Ledger {
    if i in l.rows then l
    else
      var rows := l.rows[i := RefundRow(amount, status)];
      if status != Succeeded then l.(rows := rows)
      else Ledger(PaymentAfterSum(l.payment, l.payment.refundedCents + amount), rows)
  }

  function AfterIntent(p: Payment, success: bool): Payment {
    if success && (p.status == PaymentStatus.PENDING || p.status == FAILED) then p.(status := SUCCEEDED)
    else if !success && p.status == PaymentStatus.PENDING then p.(status := FAILED)
    else p
  }

  // ---------- the environment and its steps ----------

  /** What Stripe deduplicates on: amount, refundedCents as read, trimmed reason. */
  datatype Key = Key(amount: int, refundedCents: int, reason: string)

  datatype Call =
    | Idle
    | Checked(key: Key)
    | Charged(key: Key, refund: nat, status: RefundStatus)
    | Finished

  /** A webhook handler between two of its writes: refunds of a `charge.refunded` event
      still to mirror, or a reconciliation before and after it reads the sum. */
  datatype Handler =
    | Mirroring(listed: seq<(nat, RefundStatus)>)
    | Upserted
    | Summed(total: int)

  datatype System = System(ledger: Ledger, issued: seq<int>, keys: map<Key, nat>, calls: map<Id, Call>, handlers: map<Id, Handler>)

  datatype Label =
    | Read(call: Id, asked: Option<int>, reason: string)
    | CallStripe(call: Id, status: RefundStatus)
    | Record(call: Id)
    | Elsewhere(amount: int)
    | RefundEvent(handler: Id, refund: nat, status: RefundStatus)
    | Aggregate(handler: Id)
    | WriteTotal(handler: Id)
    | ChargeEvent(handler: Id, amountRefunded: int, listed: seq<(nat, RefundStatus)>)
    | Mirror(handler: Id)
    | IntentEvent(success: bool)

  /** `refundPayment` up to the Stripe call: None is one of its errors. */
  function RefundAmount(p: Payment, asked: Option<int>): Option<int> {
    var remaining := p.amountCents - p.refundedCents;
    var amount := if asked.Some? then asked.value else remaining;
    if p.status != SUCCEEDED && p.status != PARTIALLY_REFUNDED then None
    else if amount <= 0 || amount > remaining then None
    else Some(amount)
  }

  function IdsOf(listed: seq<(nat, RefundStatus)>): set<nat> {
    set k | 0 <= k < |listed| :: listed[k].0
  }

  predicate InCharge(s: System, amount: int) {
    amount >= 1 && Issued(s.issued) + amount <= s.ledger.payment.amountCents
  }

  /** What an event may say: it names issued refunds, and its total is positive and no
      more than the refunds it lists. */
  predicate Enabled(s: System, l: Label) {
    match l
    case Read(c, _, _) => c in s.calls && s.calls[c].Idle?
    case CallStripe(c, _) => c in s.calls && s.calls[c].Checked?
    case Record(c) => c in s.calls && s.calls[c].Charged?
    case Elsewhere(amount) => InCharge(s, amount)
    case RefundEvent(h, i, _) => h !in s.handlers && i < |s.issued|
    case Aggregate(h) => h in s.handlers && s.handlers[h].Upserted?
    case WriteTotal(h) => h in s.handlers && s.handlers[h].Summed?
    case ChargeEvent(h, total, listed) =>
      && h !in s.handlers
      && (forall k :: 0 <= k < |listed| ==> listed[k].0 < |s.issued|)
      && 0 < total <= Listed(s.issued, IdsOf(listed))
    case Mirror(h) => h in s.handlers && s.handlers[h].Mirroring? && MirrorsNext(s, s.handlers[h].listed)
    case IntentEvent(_) => true
  }

  predicate MirrorsNext(s: System, listed: seq<(nat, RefundStatus)>) {
    listed != [] && listed[0].0 < |s.issued|
  }

  function Smaller(a: int, b: int): int {
    if a < b then a else b
  }

  function WithRows(s: System, rows: Refunds): System {
    s.(ledger := s.ledger.(rows := rows))
  }

  function WithPayment(s: System, p: Payment): System {
    s.(ledger := s.ledger.(payment := p))
  }

  function AfterCallStripe(s: System, c: Id, status: RefundStatus): System
    requires Enabled(s, CallStripe(c, status))
  {
    var key := s.calls[c].key;
    if key in s.keys then s.(calls := s.calls[c := Charged(key, s.keys[key], status)])
    else if !InCharge(s, key.amount) then s.(calls := s.calls[c := Finished])
    else s.(issued := s.issued + [key.amount], keys := s.keys[key := |s.issued|], calls := s.calls[c := Charged(key, |s.issued|, status)])
  }

  function Next(s: System, l: Label): System
    requires Enabled(s, l)
  {
    match l
    case Read(c, asked, reason) =>
      var amount := RefundAmount(s.ledger.payment, asked);
      s.(calls := s.calls[c := if amount.Some? then Checked(Key(amount.value, s.ledger.payment.refundedCents, reason)) else Finished])
    case CallStripe(c, status) => AfterCallStripe(s, c, status)
    case Record(c) =>
      var call := s.calls[c];
      s.(ledger := AfterRecord(s.ledger, call.refund, call.key.amount, call.status), calls := s.calls[c := Finished])
    case Elsewhere(amount) => s.(issued := s.issued + [amount])
    case RefundEvent(h, i, status) =>
      WithRows(s, Upsert(s.ledger.rows, i, s.issued[i], status))
        .(handlers := if status == Succeeded then s.handlers[h := Upserted] else s.handlers)
    case Aggregate(h) =>
      s.(handlers := s.handlers[h := Summed(Smaller(Settled(s.ledger.rows, |s.issued|), s.ledger.payment.amountCents))])
    case WriteTotal(h) =>
      WithPayment(s, PaymentAfterSum(s.ledger.payment, s.handlers[h].total)).(handlers := s.handlers - {h})
    case ChargeEvent(h, total, listed) =>
      WithPayment(s, PaymentAfterCharge(s.ledger.payment, total)).(handlers := s.handlers[h := Mirroring(listed)])
    case Mirror(h) =>
      var listed := s.handlers[h].listed;
      WithRows(s, Upsert(s.ledger.rows, listed[0].0, s.issued[listed[0].0], listed[0].1))
        .(handlers := if |listed| == 1 then s.handlers - {h} else s.handlers[h := Mirroring(listed[1..])])
    case IntentEvent(success) => WithPayment(s, AfterIntent(s.ledger.payment, success))
  }

  predicate IsRun(s: System, labels: seq<Label>)
    decreases |labels|
  {
    labels == [] || (Enabled(s, labels[0]) && IsRun(Next(s, labels[0]), labels[1..]))
  }

  function Final(s: System, labels: seq<Label>): System
    requires IsRun(s, labels)
    decreases |labels|
  {
    if labels == [] then s else Final(Next(s, labels[0]), labels[1..])
  }

  lemma RunCons(s: System, l: Label, rest: seq<Label>)
    requires Enabled(s, l) && IsRun(Next(s, l), rest)
    ensures IsRun(s, [l] + rest) && Final(s, [l] + rest) == Final(Next(s, l), rest)
  {
    assert ([l] + rest)[1..] == rest;
  }

  lemma RunOfThree(s: System, k: Label, l: Label, m: Label)
    requires Enabled(s, k) && Enabled(Next(s, k), l) && Enabled(Next(Next(s, k), l), m)
    ensures IsRun(s, [k, l, m]) && Final(s, [k, l, m]) == Next(Next(Next(s, k), l), m)
  {
    RunCons(Next(Next(s, k), l), m, []);
    RunCons(Next(s, k), l, [m]);
    RunCons(s, k, [l, m]);
    assert [k, l, m] == [k] + [l, m] && [l, m] == [l] + [m] && [m] == [m] + [];
  }

  // ---------- bookkeeping that no race can disturb ----------

  ghost predicate CallOk(s: System, c: Id)
    requires c in s.calls
  {
    match s.calls[c]
    case Checked(key) => key.amount >= 1
    case Charged(key, i, _) => key in s.keys && s.keys[key] == i
    case _ => true
  }

  /** A sum that was read stays within the recorded refunds, which only grow. */
  ghost predicate HandlerOk(s: System, h: Id)
    requires h in s.handlers
  {
    match s.handlers[h]
    case Mirroring(listed) => listed != [] && forall k :: 0 <= k < |listed| ==> listed[k].0 < |s.issued|
    case Upserted => true
    case Summed(total) => 0 <= total <= Recorded(s.ledger.rows, |s.issued|)
  }

  /** Every idempotency key names a refund of its amount. */
  predicate KeysName(issued: seq<int>, keys: map<Key, nat>) {
    forall k :: k in keys ==> keys[k] < |issued| && issued[keys[k]] == k.amount
  }

  ghost predicate Sums(s: System) {
    && Positive(s.issued) && Issued(s.issued) <= s.ledger.payment.amountCents
    && Mirrors(s.ledger.rows, s.issued)
    && s.ledger.payment.refundedCents >= 0
  }

  ghost predicate Accounted(s: System) {
    && Sums(s) && KeysName(s.issued, s.keys)
    && (forall c :: c in s.calls ==> CallOk(s, c))
    && (forall h :: h in s.handlers ==> HandlerOk(s, h))
  }

  lemma NewKeyNames(issued: seq<int>, keys: map<Key, nat>, key: Key)
    requires KeysName(issued, keys)
    ensures KeysName(issued + [key.amount], keys[key := |issued|])
  {
  }

  lemma IssuingKeepsSums(rows: Refunds, issued: seq<int>, amount: int)
    requires Positive(issued) && Mirrors(rows, issued) && amount >= 1
    ensures Positive(issued + [amount]) && Mirrors(rows, issued + [amount])
    ensures Issued(issued + [amount]) == Issued(issued) + amount
    ensures Recorded(rows, |issued + [amount]|) == Recorded(rows, |issued|)
    ensures Settled(rows, |issued + [amount]|) == Settled(rows, |issued|)
  {
    assert (issued + [amount])[..|issued|] == issued;
  }

  lemma UpsertMoves(rows: Refunds, issued: seq<int>, i: nat, status: RefundStatus)
    requires Positive(issued) && Mirrors(rows, issued) && i < |issued|
    ensures var rows' := Upsert(rows, i, issued[i], status);
      && Mirrors(rows', issued)
      && Recorded(rows', |issued|) == Recorded(rows, |issued|) + (if i in rows then 0 else issued[i])
      && Settled(rows', |issued|) == Settled(rows, |issued|) - Counts(rows, i) + (if status == Succeeded then issued[i] else 0)
  {
    OneRowMoves(rows, i, RefundRow(issued[i], status), |issued|);
  }

  lemma SettledIsBounded(s: System)
    requires Sums(s)
    ensures 0 <= Settled(s.ledger.rows, |s.issued|) <= Recorded(s.ledger.rows, |s.issued|)
    ensures Recorded(s.ledger.rows, |s.issued|) <= Issued(s.issued) <= s.ledger.payment.amountCents
  {
    SumsAreOrdered(s.ledger.rows, s.issued, |s.issued|);
    assert s.issued[..|s.issued|] == s.issued;
  }

  lemma StepGrows(s: System, l: Label)
    requires Enabled(s, l)
    ensures s.issued <= Next(s, l).issued && s.ledger.rows.Keys <= Next(s, l).ledger.rows.Keys
  {
  }

  lemma StepKeepsKeys(s: System, l: Label)
    requires Accounted(s) && Enabled(s, l)
    ensures KeysName(Next(s, l).issued, Next(s, l).keys)
  {
    if l.CallStripe? {
      NewKeyNames(s.issued, s.keys, s.calls[l.call].key);
    }
  }

  /** No step lowers the recorded refunds, and every step keeps the sums in order. */
  lemma StepKeepsSums(s: System, l: Label)
    requires Accounted(s) && Enabled(s, l)
    ensures Sums(Next(s, l))
    ensures Recorded(Next(s, l).ledger.rows, |Next(s, l).issued|) >= Recorded(s.ledger.rows, |s.issued|)
  {
    match l
    case CallStripe(c, status) =>
      assert CallOk(s, c);
      IssuingKeepsSums(s.ledger.rows, s.issued, s.calls[c].key.amount);
    case Record(c) =>
      assert CallOk(s, c);
      UpsertMoves(s.ledger.rows, s.issued, s.calls[c].refund, s.calls[c].status);
    case Elsewhere(amount) => IssuingKeepsSums(s.ledger.rows, s.issued, amount);
    case RefundEvent(h, i, status) => UpsertMoves(s.ledger.rows, s.issued, i, status);
    case Mirror(h) => UpsertMoves(s.ledger.rows, s.issued, s.handlers[h].listed[0].0, s.handlers[h].listed[0].1);
    case WriteTotal(h) => assert HandlerOk(s, h);
    case _ =>
  }

  lemma StepKeepsCalls(s: System, l: Label, c: Id)
    requires Accounted(s) && Enabled(s, l) && c in Next(s, l).calls
    ensures CallOk(Next(s, l), c)
  {
    assert CallOk(s, c);
  }

  /** A handler that starts or moves on. */
  lemma OwnStepIsOk(s: System, l: Label, h: Id)
    requires Accounted(s) && Enabled(s, l)
    requires l.RefundEvent? || l.Aggregate? || l.ChargeEvent? || l.Mirror?
    requires l.handler == h && h in Next(s, l).handlers
    ensures HandlerOk(Next(s, l), h)
  {
    SettledIsBounded(s);
    assert h in s.handlers ==> HandlerOk(s, h);
    if l.ChargeEvent? && l.listed == [] {
      assert IdsOf(l.listed) == {};
      ListedNone(s.issued);
    }
  }

  lemma StepKeepsHandlers(s: System, l: Label, h: Id)
    requires Accounted(s) && Enabled(s, l) && h in Next(s, l).handlers
    ensures HandlerOk(Next(s, l), h)
  {
    if (l.RefundEvent? || l.Aggregate? || l.ChargeEvent? || l.Mirror?) && l.handler == h {
      OwnStepIsOk(s, l, h);
    } else {
      StepKeepsSums(s, l);
      StepGrows(s, l);
      assert h in s.handlers && Next(s, l).handlers[h] == s.handlers[h] && HandlerOk(s, h);
    }
  }

  lemma StepKeepsAccounted(s: System, l: Label)
    requires Accounted(s) && Enabled(s, l)
    ensures Accounted(Next(s, l))
  {
    StepKeepsSums(s, l);
    StepKeepsKeys(s, l);
    forall c | c in Next(s, l).calls
      ensures CallOk(Next(s, l), c)
    {
      StepKeepsCalls(s, l, c);
    }
    forall h | h in Next(s, l).handlers
      ensures HandlerOk(Next(s, l), h)
    {
      StepKeepsHandlers(s, l, h);
    }
  }

  lemma {:induction false} RunKeepsAccounted(s: System, labels: seq<Label>)
    requires Accounted(s) && IsRun(s, labels)
    ensures Accounted(Final(s, labels))
    decreases |labels|
  {
    if labels != [] {
      StepKeepsAccounted(s, labels[0]);
      RunKeepsAccounted(Next(s, labels[0]), labels[1..]);
    }
  }

  // ---------- one refund for one key ----------

  /** Call d has nothing left to add: it is over, or its refund is already on record. */
  ghost predicate NothingToAdd(s: System, d: Id) {
    d in s.calls && (s.calls[d].Finished? || (s.calls[d].Charged? && s.calls[d].refund in s.ledger.rows))
  }

  lemma NothingToAddStays(s: System, l: Label, d: Id)
    requires Enabled(s, l) && NothingToAdd(s, d)
    ensures NothingToAdd(Next(s, l), d)
  {
    StepGrows(s, l);
  }

  lemma {:induction false} NothingToAddLasts(s: System, labels: seq<Label>, d: Id)
    requires IsRun(s, labels) && NothingToAdd(s, d)
    ensures NothingToAdd(Final(s, labels), d)
    decreases |labels|
  {
    if labels != [] {
      NothingToAddStays(s, labels[0], d);
      NothingToAddLasts(Next(s, labels[0]), labels[1..], d);
    }
  }

  /** Two clicks that read the same total and ask for the same amount and reason are one
      refund: once one is recorded, recording the other changes nothing, however many
      steps come in between. */
  lemma TwinCallsRefundOnce(s: System, c: Id, d: Id, labels: seq<Label>)
    requires Accounted(s) && c != d && Enabled(s, Record(c)) && Enabled(s, Record(d))
    requires s.calls[c].key == s.calls[d].key
    requires IsRun(Next(s, Record(c)), labels) && Enabled(Final(Next(s, Record(c)), labels), Record(d))
    ensures s.calls[c].refund == s.calls[d].refund
    ensures Next(Final(Next(s, Record(c)), labels), Record(d)).ledger == Final(Next(s, Record(c)), labels).ledger
  {
    assert CallOk(s, c) && CallOk(s, d);
    NothingToAddLasts(Next(s, Record(c)), labels, d);
  }
}
