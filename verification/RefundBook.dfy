/** The payments service on one payment: its endpoint and its webhook handlers, write by
    write, with anybody else acting in between. */
module RefundBook {
  import opened Prelude
  import opened Calendar
  import opened Refunds
  import opened RefundBounds
  import opened RefundTotals

  datatype Party = Caller(call: Id) | Webhook(handler: Id) | Stripe

  function ActorOf(l: Label): Party {
    match l
    case Read(c, _, _) => Caller(c)
    case CallStripe(c, _) => Caller(c)
    case Record(c) => Caller(c)
    case RefundEvent(h, _, _) => Webhook(h)
    case Aggregate(h) => Webhook(h)
    case WriteTotal(h) => Webhook(h)
    case ChargeEvent(h, _, _) => Webhook(h)
    case Mirror(h) => Webhook(h)
    case Elsewhere(_) => Stripe
    case IntentEvent(_) => Stripe
  }

  ghost predicate Ran(s: System, labels: seq<Label>, s': System) {
    IsRun(s, labels) && Final(s, labels) == s'
  }

  lemma {:induction false} RanAppend(s: System, a: seq<Label>, m: System, b: seq<Label>, s': System)
    requires Ran(s, a, m) && Ran(m, b, s')
    ensures Ran(s, a + b, s')
    decreases |a|
  {
    if a == [] {
      assert a + b == b;
    } else {
      RanAppend(Next(s, a[0]), a[1..], m, b, s');
      assert (a + b)[1..] == a[1..] + b;
    }
  }

  lemma RanOne(s: System, l: Label)
    requires Enabled(s, l)
    ensures Ran(s, [l], Next(s, l))
  {
    assert [l][1..] == [];
  }

  /** The steps of one party, in order. */
  function StepsOf(labels: seq<Label>, who: Party): seq<Label> {
    if labels == [] then []
    else StepsOf(labels[..|labels| - 1], who) + if ActorOf(labels[|labels| - 1]) == who then [labels[|labels| - 1]] else []
  }

  lemma {:induction false} StepsAppend(a: seq<Label>, b: seq<Label>, who: Party)
    ensures StepsOf(a + b, who) == StepsOf(a, who) + StepsOf(b, who)
  {
    if b == [] {
      assert a + b == a;
    } else {
      assert (a + b)[..|a + b| - 1] == a + b[..|b| - 1];
      StepsAppend(a, b[..|b| - 1], who);
    }
  }

  lemma StepsOne(l: Label, who: Party)
    ensures StepsOf([l], who) == if ActorOf(l) == who then [l] else []
  {
    assert [l][..0] == [];
  }

  /** A run and its continuation. */
  lemma Extend(s: System, did: seq<Label>, m: System, more: seq<Label>, s': System, who: Party)
    requires Ran(s, did, m) && Ran(m, more, s')
    ensures Ran(s, did + more, s') && StepsOf(did + more, who) == StepsOf(did, who) + StepsOf(more, who)
  {
    RanAppend(s, did, m, more, s');
    StepsAppend(did, more, who);
  }

  lemma ExtendOne(s: System, did: seq<Label>, m: System, l: Label, who: Party)
    requires Ran(s, did, m) && Enabled(m, l)
    ensures Ran(s, did + [l], Next(m, l))
    ensures StepsOf(did + [l], who) == StepsOf(did, who) + if ActorOf(l) == who then [l] else []
  {
    RanOne(m, l);
    StepsOne(l, who);
    Extend(s, did, m, [l], Next(m, l), who);
  }

  lemma ExtendMirrors(s: System, did: seq<Label>, m: System, more: seq<Label>, s': System, h: Id, first: Label, k: nat)
    requires Ran(s, did, m) && Ran(m, more, s')
    requires StepsOf(did, Webhook(h)) == [first] + MirrorSteps(h, k) && StepsOf(more, Webhook(h)) == [Mirror(h)]
    ensures Ran(s, did + more, s') && StepsOf(did + more, Webhook(h)) == [first] + MirrorSteps(h, k + 1)
  {
    Extend(s, did, m, more, s', Webhook(h));
    assert MirrorSteps(h, k) + [Mirror(h)] == MirrorSteps(h, k + 1);
  }

  lemma OthersKeepMine(s: System, l: Label, who: Party)
    requires Enabled(s, l) && ActorOf(l) != who
    ensures who.Caller? && who.call in s.calls ==> who.call in Next(s, l).calls && Next(s, l).calls[who.call] == s.calls[who.call]
    ensures who.Webhook? ==> (who.handler in Next(s, l).handlers <==> who.handler in s.handlers)
    ensures who.Webhook? && who.handler in s.handlers ==> Next(s, l).handlers[who.handler] == s.handlers[who.handler]
  {
  }

  class Book {
    var ledger: Ledger
    var issued: seq<int>
    var keys: map<Key, nat>
    var calls: map<Id, Call>
    var handlers: map<Id, Handler>

    /** A new payment, no refund yet, and the endpoint calls about to be made. */
    constructor (amountCents: int, callers: set<Id>)
      requires amountCents >= 0
      ensures State() == System(Ledger(Payment(amountCents, 0, PaymentStatus.PENDING), map[]), [], map[],
                                map c | c in callers :: Idle, map[])
      ensures Accounted(State()) && Bounded(State()) && StatusAgrees(ledger.payment) && SumsAreNonempty(State())
    {
      ledger := Ledger(Payment(amountCents, 0, PaymentStatus.PENDING), map[]);
      issued, keys, handlers := [], map[], map[];
      calls := map c | c in callers :: Idle;
      new;
      ListedGrows(issued, {}, Known(State()));
    }

    function State(): System
      reads this
    {
      System(ledger, issued, keys, calls, handlers)
    }

    /** Any one step. */
    method Perform(l: Label)
      requires Accounted(State()) && Enabled(State(), l)
      modifies this
      ensures State() == Next(old(State()), l) && Accounted(State())
    {
      StepKeepsAccounted(State(), l);
      var s := Next(State(), l);
      ledger, issued, keys, calls, handlers := s.ledger, s.issued, s.keys, s.calls, s.handlers;
    }

    ghost predicate SameFor(who: Party, s: System)
      reads this
    {
      match who
      case Caller(c) => c in calls && c in s.calls && calls[c] == s.calls[c]
      case Webhook(h) => (h in handlers <==> h in s.handlers) && (h in handlers ==> handlers[h] == s.handlers[h])
      case Stripe => true
    }

    /** Everybody but `who` acts, as far as possible in the order given. */
    method LetOthersAct(labels: seq<Label>, who: Party) returns (ghost did: seq<Label>)
      requires Accounted(State()) && (who.Caller? ==> who.call in calls)
      modifies this
      ensures Accounted(State()) && Ran(old(State()), did, State()) && StepsOf(did, who) == []
      ensures SameFor(who, old(State())) && old(ledger).rows.Keys <= ledger.rows.Keys
      ensures labels == [] ==> did == []
    {
      did := [];
      for k := 0 to |labels|
        invariant Accounted(State()) && Ran(old(State()), did, State()) && StepsOf(did, who) == []
        invariant SameFor(who, old(State())) && old(ledger).rows.Keys <= ledger.rows.Keys
        invariant k == 0 ==> did == []
      {
        if ActorOf(labels[k]) != who && Enabled(State(), labels[k]) {
          OthersKeepMine(State(), labels[k], who);
          StepGrows(State(), labels[k]);
          ExtendOne(old(State()), did, State(), labels[k], who);
          did := did + [labels[k]];
          Perform(labels[k]);
        }
      }
    }

    /** The upsert of `reconcileStripeRefund`. */
    method UpsertRefund(h: Id, i: nat, status: RefundStatus)
      requires Accounted(State()) && Enabled(State(), RefundEvent(h, i, status))
      modifies this`ledger, this`handlers
      ensures State() == Next(old(State()), RefundEvent(h, i, status)) && Accounted(State())
    {
      StepKeepsAccounted(State(), RefundEvent(h, i, status));
      if i in ledger.rows {
        ledger := ledger.(rows := ledger.rows[i := ledger.rows[i].(status := status)]);
      } else {
        ledger := ledger.(rows := ledger.rows[i := RefundRow(issued[i], status)]);
      }
      if status == Succeeded {
        handlers := handlers[h := Upserted];
      }
    }

    /** Its aggregate query. */
    method SumSucceeded(h: Id)
      requires Accounted(State()) && Enabled(State(), Aggregate(h))
      modifies this`handlers
      ensures State() == Next(old(State()), Aggregate(h)) && Accounted(State())
    {
      StepKeepsAccounted(State(), Aggregate(h));
      var refunded := Settled(ledger.rows, |issued|);
      if refunded > ledger.payment.amountCents {
        refunded := ledger.payment.amountCents;
      }
      handlers := handlers[h := Summed(refunded)];
    }

    /** Its last update. */
    method WriteSum(h: Id)
      requires Accounted(State()) && Enabled(State(), WriteTotal(h))
      modifies this`ledger, this`handlers
      ensures State() == Next(old(State()), WriteTotal(h)) && Accounted(State())
    {
      StepKeepsAccounted(State(), WriteTotal(h));
      var refunded := handlers[h].total;
      var status := if refunded >= ledger.payment.amountCents then REFUNDED else PARTIALLY_REFUNDED;
      ledger := ledger.(payment := ledger.payment.(refundedCents := refunded, status := status));
      handlers := handlers - {h};
    }

    /** `reconcileStripeRefund`, with others acting before its query and before its update:
        a run in which the handler itself makes exactly these steps. */
    method ReconcileStripeRefund(h: Id, i: nat, status: RefundStatus, before: seq<Label>, after: seq<Label>)
      returns (ghost did: seq<Label>)
      requires Accounted(State()) && h !in handlers && i < |issued|
      modifies this
      ensures Accounted(State()) && h !in handlers && Ran(old(State()), did, State())
      ensures StepsOf(did, Webhook(h)) ==
        [RefundEvent(h, i, status)] + if status == Succeeded then [Aggregate(h), WriteTotal(h)] else []
      ensures before == [] && after == [] ==>
        State() == Reconciled(old(State()), h, i, status) && ReconciledPlainly(old(State()), State(), i, status)
    {
      ghost var me, start := Webhook(h), State();
      did := [];
      ExtendOne(start, did, State(), RefundEvent(h, i, status), me);
      did := did + [RefundEvent(h, i, status)];
      ReconciledMeans(State(), h, i, status);
      UpsertRefund(h, i, status);
      if status == Succeeded {
        ghost var did1 := FinishReconciling(h, before, after);
        Extend(start, did, Next(start, RefundEvent(h, i, status)), did1, State(), me);
        did := did + did1;
      }
    }

    /** A refund made at Stripe's dashboard, within what is left of the charge: it is issued,
        and nothing here knows of it yet. */
    method RefundElsewhere(amount: int)
      requires Accounted(State()) && 1 <= amount <= ledger.payment.amountCents - Issued(issued)
      modifies this
      ensures Accounted(State()) && issued == old(issued) + [amount]
      ensures ledger == old(ledger) && keys == old(keys) && calls == old(calls) && handlers == old(handlers)
    {
      Perform(Elsewhere(amount));
    }

    /** `payment_intent.succeeded` and `payment_intent.payment_failed`: success settles what
        is pending or had failed, failure only what is pending. */
    method PaymentIntent(success: bool)
      requires Accounted(State())
      modifies this
      ensures State() == Next(old(State()), IntentEvent(success)) && Accounted(State())
      ensures ledger.rows == old(ledger).rows && ledger.payment == old(ledger).payment.(status :=
        match old(ledger).payment.status
        case PENDING => if success then SUCCEEDED else FAILED
        case FAILED => if success then SUCCEEDED else FAILED
        case other => other)
    {
      Perform(IntentEvent(success));
    }

    method SumAfter(h: Id, rivals: seq<Label>) returns (ghost did: seq<Label>)
      requires Accounted(State()) && Enabled(State(), Aggregate(h))
      modifies this
      ensures Accounted(State()) && Enabled(State(), WriteTotal(h))
      ensures Ran(old(State()), did, State()) && StepsOf(did, Webhook(h)) == [Aggregate(h)]
      ensures rivals == [] ==> State() == Next(old(State()), Aggregate(h))
    {
      ghost var start := State();
      did := LetOthersAct(rivals, Webhook(h));
      ExtendOne(start, did, State(), Aggregate(h), Webhook(h));
      did := did + [Aggregate(h)];
      SumSucceeded(h);
    }

    method WriteAfter(h: Id, rivals: seq<Label>) returns (ghost did: seq<Label>)
      requires Accounted(State()) && Enabled(State(), WriteTotal(h))
      modifies this
      ensures Accounted(State()) && h !in handlers
      ensures Ran(old(State()), did, State()) && StepsOf(did, Webhook(h)) == [WriteTotal(h)]
      ensures rivals == [] ==> State() == Next(old(State()), WriteTotal(h))
    {
      ghost var start := State();
      did := LetOthersAct(rivals, Webhook(h));
      ExtendOne(start, did, State(), WriteTotal(h), Webhook(h));
      did := did + [WriteTotal(h)];
      WriteSum(h);
    }

    method FinishReconciling(h: Id, before: seq<Label>, after: seq<Label>) returns (ghost did: seq<Label>)
      requires Accounted(State()) && Enabled(State(), Aggregate(h))
      modifies this
      ensures Accounted(State()) && h !in handlers && Ran(old(State()), did, State())
      ensures StepsOf(did, Webhook(h)) == [Aggregate(h), WriteTotal(h)]
      ensures before == [] && after == [] ==> State() == Next(Next(old(State()), Aggregate(h)), WriteTotal(h))
    {
      ghost var start := State();
      did := SumAfter(h, before);
      ghost var m := State();
      ghost var did2 := WriteAfter(h, after);
      Extend(start, did, m, did2, State(), Webhook(h));
      did := did + did2;
    }

    /** The total of `charge.refunded`. */
    method WriteEventTotal(h: Id, total: int, listed: seq<(nat, RefundStatus)>)
      requires Accounted(State()) && Enabled(State(), ChargeEvent(h, total, listed))
      modifies this`ledger, this`handlers
      ensures State() == Next(old(State()), ChargeEvent(h, total, listed)) && Accounted(State())
    {
      StepKeepsAccounted(State(), ChargeEvent(h, total, listed));
      ledger := ledger.(payment := PaymentAfterCharge(ledger.payment, total));
      handlers := handlers[h := Mirroring(listed)];
    }

    /** One upsert of `charge.refunded`. */
    method MirrorNext(h: Id)
      requires Accounted(State()) && Enabled(State(), Mirror(h))
      modifies this`ledger, this`handlers
      ensures State() == Next(old(State()), Mirror(h)) && Accounted(State())
    {
      StepKeepsAccounted(State(), Mirror(h));
      var listed := handlers[h].listed;
      ledger := ledger.(rows := Upsert(ledger.rows, listed[0].0, issued[listed[0].0], listed[0].1));
      handlers := if |listed| == 1 then handlers - {h} else handlers[h := Mirroring(listed[1..])];
    }

    predicate StillToMirror(h: Id, listed: seq<(nat, RefundStatus)>)
      reads this
    {
      if listed == [] then h !in handlers else h in handlers && handlers[h] == Mirroring(listed)
    }

    method MirrorAfter(h: Id, rivals: seq<Label>) returns (ghost did: seq<Label>)
      requires Accounted(State()) && h in handlers && handlers[h].Mirroring?
      modifies this
      ensures Accounted(State()) && Ran(old(State()), did, State()) && StepsOf(did, Webhook(h)) == [Mirror(h)]
      ensures var listed := old(handlers)[h].listed;
        && listed != [] && listed[0].0 in ledger.rows && old(ledger).rows.Keys <= ledger.rows.Keys
        && StillToMirror(h, listed[1..])
      ensures rivals == [] ==> Enabled(old(State()), Mirror(h)) && State() == Next(old(State()), Mirror(h))
    {
      ghost var start := State();
      did := LetOthersAct(rivals, Webhook(h));
      NextToMirror(State(), h);
      ExtendOne(start, did, State(), Mirror(h), Webhook(h));
      MirrorDoes(State(), h);
      did := did + [Mirror(h)];
      MirrorNext(h);
    }

    /** The `charge.refunded` case, with others acting before each upsert: a run in which the
        handler writes the total and then mirrors every listed refund. */
    method ChargeRefunded(h: Id, total: int, listed: seq<(nat, RefundStatus)>, rivals: seq<seq<Label>>)
      returns (ghost did: seq<Label>)
      requires Accounted(State()) && h !in handlers && |rivals| == |listed|
      requires (forall k :: 0 <= k < |listed| ==> listed[k].0 < |issued|) && 0 < total <= Listed(issued, IdsOf(listed))
      modifies this
      ensures Accounted(State()) && h !in handlers && Ran(old(State()), did, State())
      ensures StepsOf(did, Webhook(h)) == [ChargeEvent(h, total, listed)] + MirrorSteps(h, |listed|)
      ensures AllRecorded(ledger.rows, listed, |listed|)
      ensures Quiet(rivals, |rivals|) ==> Mirrored(old(State()), State(), total, listed, |listed|)
    {
      ghost var me, start := Webhook(h), State();
      did := [];
      ExtendOne(start, did, State(), ChargeEvent(h, total, listed), me);
      did := did + [ChargeEvent(h, total, listed)];
      NoneMirrored(State(), h, total, listed);
      WriteEventTotal(h, total, listed);
      assert HandlerOk(State(), h);
      assert listed[0..] == listed;
      for k := 0 to |listed|
        invariant MirrorsDone(start, h, total, listed, rivals, did, k)
      {
        did := MirrorTurn(start, h, total, listed, rivals, did, k);
      }
    }

    /** The handler after its total and k upserts. */
    ghost predicate MirrorsDone(start: System, h: Id, total: int, listed: seq<(nat, RefundStatus)>, rivals: seq<seq<Label>>,
                                did: seq<Label>, k: nat)
      requires k <= |listed| == |rivals|
      reads this
    {
      && Accounted(State()) && Ran(start, did, State())
      && StepsOf(did, Webhook(h)) == [ChargeEvent(h, total, listed)] + MirrorSteps(h, k)
      && StillToMirror(h, listed[k..])
      && AllRecorded(ledger.rows, listed, k)
      && (Quiet(rivals, k) ==> Mirrored(start, State(), total, listed, k))
    }

    method MirrorTurn(ghost start: System, h: Id, total: int, listed: seq<(nat, RefundStatus)>, rivals: seq<seq<Label>>,
                      ghost did: seq<Label>, k: nat)
      returns (ghost did': seq<Label>)
      requires k < |listed| == |rivals| && MirrorsDone(start, h, total, listed, rivals, did, k)
      modifies this
      ensures MirrorsDone(start, h, total, listed, rivals, did', k + 1)
    {
      ghost var m := State();
      assert listed[k..][0] == listed[k] && listed[k..][1..] == listed[k + 1..];
      ghost var more := MirrorAfter(h, rivals[k]);
      ExtendMirrors(start, did, m, more, State(), h, ChargeEvent(h, total, listed), k);
      did' := did + more;
      if Quiet(rivals, k + 1) {
        assert rivals[k] == [];
        OneMoreMirrored(start, m, h, total, listed, k);
      }
    }

    method AskStripe(c: Id, status: RefundStatus)
      requires Accounted(State()) && c in calls && calls[c].Checked?
      modifies this
      ensures Accounted(State()) && c in calls && State() == Next(old(State()), CallStripe(c, status))
      ensures calls[c] == Finished || (calls[c].Charged? && calls[c].key == old(calls)[c].key)
    {
      Perform(CallStripe(c, status));
    }

    method RecordRefund(c: Id) returns (refund: nat)
      requires Accounted(State()) && c in calls && calls[c].Charged?
      modifies this
      ensures Accounted(State()) && c in calls && calls[c].Finished? && State() == Next(old(State()), Record(c))
      ensures refund == old(calls)[c].refund && refund < |issued| && issued[refund] == old(calls)[c].key.amount && refund in ledger.rows
    {
      refund := calls[c].refund;
      assert CallOk(State(), c);
      Perform(Record(c));
    }

    /** `refundPayment`: whatever happens around its read and its Stripe call, a returned
        refund is one Stripe issued for exactly what was asked (everything left, if nothing
        was), on a payment that allowed it when it was read, and it is on record.  With
        nothing in between, it answers and writes what `Refunded` says. */
    method RefundPayment(c: Id, asked: Option<int>, reason: string, status: RefundStatus, during: seq<Label>, after: seq<Label>)
      returns (refund: Option<nat>)
      requires Accounted(State()) && c in calls && calls[c].Idle?
      modifies this
      ensures Accounted(State()) && c in calls && calls[c].Finished?
      ensures refund.Some? ==>
        && MayRefund(old(ledger).payment, Wanted(old(ledger).payment, asked))
        && refund.value < |issued| && issued[refund.value] == Wanted(old(ledger).payment, asked) && refund.value in ledger.rows
      ensures during == [] && after == [] ==> Refunded(old(State()), State(), refund, Wanted(old(ledger).payment, asked), reason, status)
    {
      ghost var amount := Wanted(ledger.payment, asked);
      ReadMeans(State(), c, asked, reason);
      Perform(Read(c, asked, reason));
      refund := None;
      if calls[c].Checked? {
        ghost var did1 := LetOthersAct(during, Caller(c));
        refund := ChargeAndRecord(c, status, after);
      }
    }

    method ChargeAndRecord(c: Id, status: RefundStatus, after: seq<Label>) returns (refund: Option<nat>)
      requires Accounted(State()) && c in calls && calls[c].Checked?
      modifies this
      ensures Accounted(State()) && c in calls && calls[c].Finished?
      ensures refund.Some? ==> refund.value < |issued| && issued[refund.value] == old(calls)[c].key.amount && refund.value in ledger.rows
      ensures after == [] ==> Carried(old(State()), State(), refund, old(calls)[c].key, status)
    {
      StripeMeans(State(), c, status);
      AskStripe(c, status);
      refund := None;
      if calls[c].Charged? {
        var id := WaitAndRecord(c, after);
        refund := Some(id);
      }
    }

    method WaitAndRecord(c: Id, after: seq<Label>) returns (refund: nat)
      requires Accounted(State()) && c in calls && calls[c].Charged?
      modifies this
      ensures Accounted(State()) && c in calls && calls[c].Finished?
      ensures refund == old(calls)[c].refund && refund < |issued| && issued[refund] == old(calls)[c].key.amount && refund in ledger.rows
      ensures after == [] ==> issued == old(issued) && keys == old(keys)
      ensures after == [] ==> Entered(old(ledger), ledger, refund, old(calls)[c].key.amount, old(calls)[c].status)
    {
      ghost var did := LetOthersAct(after, Caller(c));
      RecordMeans(State(), c);
      refund := RecordRefund(c);
    }
  }

  // ---------- what an undisturbed endpoint call does ----------

  /** What the caller wants: the amount asked for, or everything that is left. */
  function Wanted(p: Payment, asked: Option<int>): int {
    match asked
    case Some(amount) => amount
    case None => p.amountCents - p.refundedCents
  }

  /** A settled payment can be refunded by one cent up to what is left. */
  predicate MayRefund(p: Payment, amount: int) {
    (p.status == SUCCEEDED || p.status == PARTIALLY_REFUNDED) && 1 <= amount && p.refundedCents + amount <= p.amountCents
  }

  /** A refund the payment allows is Stripe's answer to its key: the earlier one, a new one
      if the charge has room, else none.  One that is not on record yet is put there, and
      added to the total if it succeeded. */
  predicate Refunded(s: System, s': System, refund: Option<nat>, amount: int, reason: string, status: RefundStatus) {
    var key := Key(amount, s.ledger.payment.refundedCents, reason);
    if MayRefund(s.ledger.payment, amount) then Carried(s, s', refund, key, status)
    else refund == None && s'.ledger == s.ledger && s'.issued == s.issued && s'.keys == s.keys
  }

  predicate Carried(s: System, s': System, refund: Option<nat>, key: Key, status: RefundStatus) {
    if key in s.keys then
      && refund == Some(s.keys[key]) && s'.issued == s.issued && s'.keys == s.keys
      && Entered(s.ledger, s'.ledger, s.keys[key], key.amount, status)
    else if Issued(s.issued) + key.amount <= s.ledger.payment.amountCents then
      && refund == Some(|s.issued|) && s'.issued == s.issued + [key.amount] && s'.keys == s.keys[key := |s.issued|]
      && Entered(s.ledger, s'.ledger, |s.issued|, key.amount, status)
    else refund == None && s'.ledger == s.ledger && s'.issued == s.issued && s'.keys == s.keys
  }

  predicate Entered(l: Ledger, l': Ledger, refund: nat, amount: int, status: RefundStatus) {
    if refund in l.rows then l' == l
    else
      && l'.rows == l.rows[refund := RefundRow(amount, status)]
      && l'.payment.amountCents == l.payment.amountCents
      && (if status == Succeeded then
            && l'.payment.refundedCents == l.payment.refundedCents + amount
            && l'.payment.status == (if l.payment.amountCents <= l.payment.refundedCents + amount then REFUNDED else PARTIALLY_REFUNDED)
          else l'.payment == l.payment)
  }

  lemma ReadMeans(s: System, c: Id, asked: Option<int>, reason: string)
    requires Enabled(s, Read(c, asked, reason))
    ensures var s', amount := Next(s, Read(c, asked, reason)), Wanted(s.ledger.payment, asked);
      && s' == s.(calls := s'.calls) && c in s'.calls
      && s'.calls[c] == if MayRefund(s.ledger.payment, amount) then Checked(Key(amount, s.ledger.payment.refundedCents, reason)) else Finished
  {
  }

  lemma StripeMeans(s: System, c: Id, status: RefundStatus)
    requires Accounted(s) && Enabled(s, CallStripe(c, status))
    ensures var s', key := Next(s, CallStripe(c, status)), s.calls[c].key;
      && s'.ledger == s.ledger && c in s'.calls
      && if key in s.keys then s'.issued == s.issued && s'.keys == s.keys && s'.calls[c] == Charged(key, s.keys[key], status)
         else if Issued(s.issued) + key.amount <= s.ledger.payment.amountCents then
           s'.issued == s.issued + [key.amount] && s'.keys == s.keys[key := |s.issued|] && s'.calls[c] == Charged(key, |s.issued|, status)
         else s'.issued == s.issued && s'.keys == s.keys && s'.calls[c] == Finished
  {
    assert CallOk(s, c);
  }

  lemma RecordMeans(s: System, c: Id)
    requires Enabled(s, Record(c))
    ensures var s', call := Next(s, Record(c)), s.calls[c];
      s'.issued == s.issued && s'.keys == s.keys && Entered(s.ledger, s'.ledger, call.refund, call.key.amount, call.status)
  {
  }

  // ---------- what an undisturbed webhook does ----------

  /** The total is taken from the event, and the status follows from it. */
  predicate TotalTaken(p: Payment, p': Payment, total: int) {
    && p'.amountCents == p.amountCents && p'.refundedCents == total
    && p'.status == if total < p.amountCents then PARTIALLY_REFUNDED else REFUNDED
  }

  /** A handler that is still mirroring has a next refund, which Stripe issued. */
  lemma NextToMirror(s: System, h: Id)
    requires Accounted(s) && h in s.handlers && s.handlers[h].Mirroring?
    ensures Enabled(s, Mirror(h)) && s.handlers[h].listed != []
  {
    assert HandlerOk(s, h);
  }

  lemma MirrorDoes(s: System, h: Id)
    requires Enabled(s, Mirror(h))
    ensures var listed, s' := s.handlers[h].listed, Next(s, Mirror(h));
      && s'.ledger.rows.Keys == s.ledger.rows.Keys + {listed[0].0}
      && if listed[1..] == [] then h !in s'.handlers else h in s'.handlers && s'.handlers[h] == Mirroring(listed[1..])
  {
    var listed := s.handlers[h].listed;
    assert |listed[1..]| == |listed| - 1;
  }

  /** Nobody acts before the first n upserts. */
  predicate Quiet(rivals: seq<seq<Label>>, n: nat)
    requires n <= |rivals|
  {
    forall k :: 0 <= k < n ==> rivals[k] == []
  }

  /** The status an event lists last for a refund. */
  function LastListed(listed: seq<(nat, RefundStatus)>, i: nat): Option<RefundStatus> {
    if listed == [] then None
    else if listed[|listed| - 1].0 == i then Some(listed[|listed| - 1].1)
    else LastListed(listed[..|listed| - 1], i)
  }

  /** A listed refund is on record with that status, its amount being the one it had or
      Stripe's; any other is as it was. */
  predicate RowMirrored(rows: Refunds, rows': Refunds, issued: seq<int>, i: nat, status: Option<RefundStatus>) {
    match status
    case None => (i in rows' <==> i in rows) && (i in rows ==> rows'[i] == rows[i])
    case Some(last) =>
      i < |issued| && i in rows' && rows'[i] == RefundRow(if i in rows then rows[i].amount else issued[i], last)
  }

  /** After the total and the first n upserts, with nothing in between. */
  ghost predicate Mirrored(s: System, s': System, total: int, listed: seq<(nat, RefundStatus)>, n: nat)
    requires n <= |listed|
  {
    && s'.issued == s.issued && TotalTaken(s.ledger.payment, s'.ledger.payment, total)
    && forall i: nat :: RowMirrored(s.ledger.rows, s'.ledger.rows, s.issued, i, LastListed(listed[..n], i))
  }

  /** `reconcileStripeRefund` with nothing in between: the refund is on record with this
      status, and a success sets the total to what succeeded, up to the charge. */
  ghost predicate ReconciledPlainly(s: System, s': System, i: nat, status: RefundStatus) {
    var p, p' := s.ledger.payment, s'.ledger.payment;
    var total := Settled(s'.ledger.rows, |s.issued|);
    && s'.issued == s.issued && RowMirrored(s.ledger.rows, s'.ledger.rows, s.issued, i, Some(status))
    && (forall j: nat :: j != i ==> RowMirrored(s.ledger.rows, s'.ledger.rows, s.issued, j, None))
    && if status == Succeeded then TotalTaken(p, p', if total <= p.amountCents then total else p.amountCents) else p' == p
  }

  lemma ReconciledMeans(s: System, h: Id, i: nat, status: RefundStatus)
    requires Accounted(s) && Enabled(s, RefundEvent(h, i, status))
    ensures ReconciledPlainly(s, Reconciled(s, h, i, status), i, status)
  {
  }

  lemma NoneMirrored(s: System, h: Id, total: int, listed: seq<(nat, RefundStatus)>)
    requires Enabled(s, ChargeEvent(h, total, listed))
    ensures Mirrored(s, Next(s, ChargeEvent(h, total, listed)), total, listed, 0)
  {
  }

  lemma OneMoreMirrored(s: System, m: System, h: Id, total: int, listed: seq<(nat, RefundStatus)>, n: nat)
    requires n < |listed| && Mirrored(s, m, total, listed, n)
    requires Enabled(m, Mirror(h)) && m.handlers[h].listed == listed[n..]
    ensures Mirrored(s, Next(m, Mirror(h)), total, listed, n + 1)
  {
    assert listed[n..][0] == listed[n];
    var rows', front := Next(m, Mirror(h)).ledger.rows, listed[..n + 1];
    forall i: nat
      ensures RowMirrored(s.ledger.rows, rows', s.issued, i, LastListed(front, i))
    {
      assert front[..n] == listed[..n];
      assert RowMirrored(s.ledger.rows, m.ledger.rows, s.issued, i, LastListed(listed[..n], i));
    }
  }

  predicate AllRecorded(rows: Refunds, listed: seq<(nat, RefundStatus)>, n: nat)
    requires n <= |listed|
  {
    forall k :: 0 <= k < n ==> listed[k].0 in rows
  }

  function MirrorSteps(h: Id, n: nat): (labels: seq<Label>)
    ensures |labels| == n
  {
    seq(n, _ => Mirror(h))
  }
}
