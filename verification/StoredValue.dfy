/** Gift cards and prepaid packages: `issue`, `redeem` (a serializable read-check-write
    with two retries) and `void`, all racing.  Both services are one machine; a package
    redemption takes one credit. */
module StoredValue {
  import opened Prelude
  import opened Calendar

  datatype Kind = GiftCard | Package

  /** SPENT is stored as REDEEMED on a gift card and USED on a package. */
  datatype CardStatus = ACTIVE | SPENT | VOID

  datatype Redemption = Redemption(request: Id, amount: int)

  datatype Account = Account(kind: Kind, initial: int, balance: int, status: CardStatus, expiresAt: Option<int>,
                             redemptions: seq<Redemption>)

  type Accounts = map<Id, Account>

  datatype Ask = Ask(account: Id, amount: int)

  datatype Refusal = NotFound | Voided | Expired | NothingLeft | NotEnough | AppointmentNotFound

  // ---------- one request, one account ----------

  /** The checks of the gift-card transaction, in order. */
  function GiftVerdict(card: Option<Account>, amount: int, now: int, appointmentFound: bool): Option<Refusal> {
    match card
    case None => Some(NotFound)
    case Some(a) =>
      if a.status == VOID then Some(Voided)
      else if a.expiresAt.Some? && a.expiresAt.value < now then Some(Expired)
      else if a.balance <= 0 then Some(NothingLeft)
      else if amount > a.balance then Some(NotEnough)
      else if !appointmentFound then Some(AppointmentNotFound)
      else None
  }

  /** The checks of the package transaction, which has no amount to compare. */
  function PackageVerdict(pack: Option<Account>, now: int, appointmentFound: bool): Option<Refusal> {
    match pack
    case None => Some(NotFound)
    case Some(a) =>
      if a.status == VOID then Some(Voided)
      else if a.expiresAt.Some? && a.expiresAt.value < now then Some(Expired)
      else if a.balance <= 0 then Some(NothingLeft)
      else if !appointmentFound then Some(AppointmentNotFound)
      else None
  }

  function Taken(card: Option<Account>, ask: Ask): int {
    if card.Some? && card.value.kind == Package then 1 else ask.amount
  }

  function Verdict(card: Option<Account>, ask: Ask, now: int, appointmentFound: bool): Option<Refusal> {
    if card.Some? && card.value.kind == Package then PackageVerdict(card, now, appointmentFound)
    else GiftVerdict(card, ask.amount, now, appointmentFound)
  }

  function AfterRedeem(a: Account, request: Id, amount: int): Account {
    a.(balance := a.balance - amount,
       status := if a.balance - amount == 0 then SPENT else ACTIVE,
       redemptions := a.redemptions + [Redemption(request, amount)])
  }

  function Issue(kind: Kind, amount: int, expiresAt: Option<int>): Account {
    Account(kind, amount, amount, ACTIVE, expiresAt, [])
  }

  function LookupAccount(accounts: Accounts, id: Id): Option<Account> {
    if id in accounts then Some(accounts[id]) else None
  }

  // ---------- the serial ledger ----------

  datatype Op =
    | Issuing(id: Id, kind: Kind, amount: int, expiresAt: Option<int>)
    | Redeeming(request: Id, now: int, appointmentFound: bool)
    | Voiding(id: Id)

  type Asks = map<Id, Ask>

  /** Amounts the request schemas let through. */
  predicate ValidAsks(asks: Asks) {
    forall r :: r in asks ==> asks[r].amount >= 1
  }

  predicate Legal(asks: Asks, accounts: Accounts, op: Op) {
    match op
    case Issuing(id, _, amount, _) => id !in accounts && amount >= 1
    case Redeeming(r, now, found) =>
      r in asks && Verdict(LookupAccount(accounts, asks[r].account), asks[r], now, found) == None
    case Voiding(id) => id in accounts
  }

  function Execute(asks: Asks, accounts: Accounts, op: Op): Accounts {
    if !Legal(asks, accounts, op) then accounts
    else match op
      case Issuing(id, kind, amount, expiresAt) => accounts[id := Issue(kind, amount, expiresAt)]
      case Redeeming(r, _, _) =>
        var id := asks[r].account;
        if id !in accounts then accounts
        else accounts[id := AfterRedeem(accounts[id], r, Taken(Some(accounts[id]), asks[r]))]
      case Voiding(id) => accounts[id := accounts[id].(status := VOID)]
  }

  function Serial(asks: Asks, ops: seq<Op>): Accounts {
    if ops == [] then map[] else Execute(asks, Serial(asks, ops[..|ops| - 1]), ops[|ops| - 1])
  }

  predicate AllLegal(asks: Asks, ops: seq<Op>) {
    ops == [] || (AllLegal(asks, ops[..|ops| - 1]) && Legal(asks, Serial(asks, ops[..|ops| - 1]), ops[|ops| - 1]))
  }

  lemma SerialPush(asks: Asks, ops: seq<Op>, op: Op)
    ensures Serial(asks, ops + [op]) == Execute(asks, Serial(asks, ops), op)
    ensures AllLegal(asks, ops + [op]) <==> AllLegal(asks, ops) && Legal(asks, Serial(asks, ops), op)
  {
    assert (ops + [op])[..|ops|] == ops;
  }

  function Total(reds: seq<Redemption>): int {
    if reds == [] then 0 else Total(reds[..|reds| - 1]) + reds[|reds| - 1].amount
  }

  predicate Balanced(a: Account) {
    && a.balance + Total(a.redemptions) == a.initial
    && 0 <= a.balance
    && (a.status != VOID ==> (a.status == SPENT <==> a.balance == 0))
    && (forall k :: 0 <= k < |a.redemptions| ==> a.redemptions[k].amount >= 1)
    && (a.kind == Package ==> Total(a.redemptions) == |a.redemptions|)
  }

  lemma RedeemKeepsBalanced(a: Account, request: Id, amount: int)
    requires Balanced(a) && 1 <= amount <= a.balance && (a.kind == Package ==> amount == 1)
    ensures Balanced(AfterRedeem(a, request, amount))
  {
    var reds := AfterRedeem(a, request, amount).redemptions;
    assert reds[..|reds| - 1] == a.redemptions;
  }

  /** Conservation, for every history: what is left and what was redeemed make up what was
      issued, nothing is overdrawn, and a package loses one credit per redemption. */
  lemma {:induction false} LedgerBalances(asks: Asks, ops: seq<Op>, id: Id)
    requires ValidAsks(asks) && id in Serial(asks, ops)
    ensures Balanced(Serial(asks, ops)[id])
  {
    if ops != [] {
      var accounts, op := Serial(asks, ops[..|ops| - 1]), ops[|ops| - 1];
      if id in accounts {
        LedgerBalances(asks, ops[..|ops| - 1], id);
        if op.Redeeming? && Legal(asks, accounts, op) && asks[op.request].account == id {
          RedeemKeepsBalanced(accounts[id], op.request, Taken(Some(accounts[id]), asks[op.request]));
        }
      }
    }
  }

  /** A void account never changes again: no redemption, no reactivation, no reissue. */
  lemma {:induction false} VoidIsFinal(asks: Asks, ops: seq<Op>, k: nat, id: Id)
    requires k <= |ops| && id in Serial(asks, ops[..k]) && Serial(asks, ops[..k])[id].status == VOID
    ensures id in Serial(asks, ops) && Serial(asks, ops)[id] == Serial(asks, ops[..k])[id]
    decreases |ops|
  {
    if k == |ops| {
      assert ops[..k] == ops;
    } else {
      assert ops[..|ops| - 1][..k] == ops[..k];
      VoidIsFinal(asks, ops[..|ops| - 1], k, id);
    }
  }

  lemma {:induction false} IssuedBefore(asks: Asks, ops: seq<Op>, id: Id)
    requires AllLegal(asks, ops) && id !in Serial(asks, ops)
    ensures Voiding(id) !in ops
  {
    if ops != [] {
      IssuedBefore(asks, ops[..|ops| - 1], id);
      assert ops == ops[..|ops| - 1] + [ops[|ops| - 1]];
    }
  }

  /** An account keeps what it was issued with, and is void exactly if it was voided since.
      With `LedgerBalances` that is all of it: what is left, and whether it is spent, follow
      from the redemptions. */
  lemma {:induction false} AccountKeepsItsIssue(asks: Asks, ops: seq<Op>, k: nat, id: Id)
    requires AllLegal(asks, ops) && k < |ops| && ops[k].Issuing? && ops[k].id == id
    ensures id in Serial(asks, ops)
    ensures var a := Serial(asks, ops)[id];
      && a.kind == ops[k].kind && a.initial == ops[k].amount && a.expiresAt == ops[k].expiresAt
      && (a.status == VOID <==> Voiding(id) in ops)
      && (k == |ops| - 1 ==> a.redemptions == [])
    decreases |ops|
  {
    var rest := ops[..|ops| - 1];
    assert ops == rest + [ops[|ops| - 1]];
    if k < |rest| {
      AccountKeepsItsIssue(asks, rest, k, id);
    } else {
      IssuedBefore(asks, rest, id);
    }
  }

  predicate TouchesAccount(asks: Asks, op: Op, id: Id) {
    match op
    case Issuing(i, _, _, _) => i == id
    case Redeeming(r, _, _) => r in asks && asks[r].account == id
    case Voiding(i) => i == id
  }

  lemma {:induction false} UntouchedAccount(asks: Asks, ops: seq<Op>, k: nat, id: Id)
    requires k <= |ops| && forall j :: k <= j < |ops| ==> !TouchesAccount(asks, ops[j], id)
    ensures LookupAccount(Serial(asks, ops), id) == LookupAccount(Serial(asks, ops[..k]), id)
    decreases |ops|
  {
    if k == |ops| {
      assert ops[..k] == ops;
    } else {
      var rest := ops[..|ops| - 1];
      assert forall j :: k <= j < |rest| ==> rest[j] == ops[j];
      assert rest[..k] == ops[..k];
      UntouchedAccount(asks, rest, k, id);
    }
  }

  function TimesRedeemed(ops: seq<Op>, r: Id): nat {
    if ops == [] then 0
    else TimesRedeemed(ops[..|ops| - 1], r) + if ops[|ops| - 1].Redeeming? && ops[|ops| - 1].request == r then 1 else 0
  }

  // ---------- racing requests ----------

  datatype Tx =
    | Waiting(attempt: nat)
    | Running(attempt: nat, since: nat, seen: Option<Account>, now: int, appointmentFound: bool)
    | Done(balance: int, status: CardStatus)
    | Refused(reason: Refusal)
    | GaveUp

  datatype System = System(accounts: Accounts, txs: map<Id, Tx>, log: seq<Op>)

  datatype Label =
    | Create(id: Id, kind: Kind, amount: int, expiresAt: Option<int>)
    | Begin(request: Id, now: int, appointmentFound: bool)
    | Refuse(request: Id)
    | Commit(request: Id)
    | Abort(request: Id)
    | Revoke(id: Id)

  const LAST_ATTEMPT := 2

  function Decision(asks: Asks, s: System, r: Id): Option<Refusal>
    requires r in asks && r in s.txs && s.txs[r].Running?
  {
    Verdict(s.txs[r].seen, asks[r], s.txs[r].now, s.txs[r].appointmentFound)
  }

  predicate IsRunning(asks: Asks, s: System, r: Id) {
    r in asks && r in s.txs && s.txs[r].Running?
  }

  /** The database lets a commit through only if the row it updates was not written since
      the snapshot, by a redemption or by the plain update of `void`. */
  predicate Enabled(asks: Asks, s: System, l: Label) {
    match l
    case Create(id, _, amount, _) => id !in s.accounts && amount >= 1
    case Begin(r, _, _) => r in asks && r in s.txs && s.txs[r].Waiting?
    case Refuse(r) => IsRunning(asks, s, r) && Decision(asks, s, r).Some?
    case Commit(r) =>
      && IsRunning(asks, s, r) && Decision(asks, s, r) == None
      && forall k :: s.txs[r].since <= k < |s.log| ==> !TouchesAccount(asks, s.log[k], asks[r].account)
    case Abort(r) => IsRunning(asks, s, r)
    case Revoke(id) => id in s.accounts
  }

  function NextTxs(asks: Asks, s: System, l: Label): map<Id, Tx>
    requires Enabled(asks, s, l)
  {
    match l
    case Create(_, _, _, _) => s.txs
    case Begin(r, now, found) =>
      s.txs[r := Running(s.txs[r].attempt, |s.log|, LookupAccount(s.accounts, asks[r].account), now, found)]
    case Refuse(r) => s.txs[r := Refused(Decision(asks, s, r).value)]
    case Commit(r) =>
      var a := AfterRedeem(s.txs[r].seen.value, r, Taken(s.txs[r].seen, asks[r]));
      s.txs[r := Done(a.balance, a.status)]
    case Abort(r) => s.txs[r := if s.txs[r].attempt < LAST_ATTEMPT then Waiting(s.txs[r].attempt + 1) else GaveUp]
    case Revoke(_) => s.txs
  }

  /** The writes.  A commit writes what it computed from its own snapshot. */
  function NextAccounts(asks: Asks, s: System, l: Label): Accounts
    requires Enabled(asks, s, l)
  {
    match l
    case Create(id, kind, amount, expiresAt) => s.accounts[id := Issue(kind, amount, expiresAt)]
    case Commit(r) =>
      s.accounts[asks[r].account := AfterRedeem(s.txs[r].seen.value, r, Taken(s.txs[r].seen, asks[r]))]
    case Revoke(id) => s.accounts[id := s.accounts[id].(status := VOID)]
    case _ => s.accounts
  }

  function OpOf(s: System, l: Label): seq<Op>
    requires l.Commit? ==> l.request in s.txs && s.txs[l.request].Running?
  {
    match l
    case Create(id, kind, amount, expiresAt) => [Issuing(id, kind, amount, expiresAt)]
    case Commit(r) => [Redeeming(r, s.txs[r].now, s.txs[r].appointmentFound)]
    case Revoke(id) => [Voiding(id)]
    case _ => []
  }

  function Next(asks: Asks, s: System, l: Label): System
    requires Enabled(asks, s, l)
  {
    System(NextAccounts(asks, s, l), NextTxs(asks, s, l), s.log + OpOf(s, l))
  }

  predicate IsRun(asks: Asks, s: System, labels: seq<Label>)
    decreases |labels|
  {
    labels == [] || (Enabled(asks, s, labels[0]) && IsRun(asks, Next(asks, s, labels[0]), labels[1..]))
  }

  function Final(asks: Asks, s: System, labels: seq<Label>): System
    requires IsRun(asks, s, labels)
    decreases |labels|
  {
    if labels == [] then s else Final(asks, Next(asks, s, labels[0]), labels[1..])
  }

  function Start(asks: Asks): System {
    System(map[], map r | r in asks :: Waiting(0), [])
  }

  /** The concurrent state is what the log gives when executed one operation at a time,
      every operation being accepted in its turn. */
  ghost predicate Invariant(asks: Asks, s: System) {
    && s.accounts == Serial(asks, s.log) && AllLegal(asks, s.log)
    && s.txs.Keys == asks.Keys
    && (forall r :: r in s.txs ==> SeenIsPast(asks, s, r))
    && (forall r :: r in s.txs ==> TimesRedeemed(s.log, r) == if s.txs[r].Done? then 1 else 0)
    && (forall r :: r in s.txs && (s.txs[r].Waiting? || s.txs[r].Running?) ==> s.txs[r].attempt <= LAST_ATTEMPT)
  }

  ghost predicate SeenIsPast(asks: Asks, s: System, r: Id)
    requires r in s.txs
  {
    s.txs[r].Running? ==>
      && r in asks && s.txs[r].since <= |s.log|
      && s.txs[r].seen == LookupAccount(Serial(asks, s.log[..s.txs[r].since]), asks[r].account)
  }

  /** What a commit read is what the ledger holds when it writes. */
  lemma CommitSeesPresent(asks: Asks, s: System, r: Id)
    requires Invariant(asks, s) && Enabled(asks, s, Commit(r))
    ensures s.txs[r].seen == LookupAccount(s.accounts, asks[r].account)
    ensures Legal(asks, s.accounts, OpOf(s, Commit(r))[0])
  {
    assert SeenIsPast(asks, s, r);
    UntouchedAccount(asks, s.log, s.txs[r].since, asks[r].account);
  }

  lemma StepIsSerial(asks: Asks, s: System, l: Label)
    requires Invariant(asks, s) && Enabled(asks, s, l)
    ensures Next(asks, s, l).accounts == Serial(asks, Next(asks, s, l).log)
    ensures AllLegal(asks, Next(asks, s, l).log)
  {
    if l.Commit? {
      CommitSeesPresent(asks, s, l.request);
    }
    if OpOf(s, l) == [] {
      assert s.log + OpOf(s, l) == s.log;
    } else {
      assert OpOf(s, l) == [OpOf(s, l)[0]];
      SerialPush(asks, s.log, OpOf(s, l)[0]);
    }
  }

  lemma StepKeepsSeen(asks: Asks, s: System, l: Label, r: Id)
    requires Invariant(asks, s) && Enabled(asks, s, l) && r in Next(asks, s, l).txs
    ensures SeenIsPast(asks, Next(asks, s, l), r)
  {
    var s' := Next(asks, s, l);
    assert r in s.txs && SeenIsPast(asks, s, r);
    if s'.txs[r].Running? {
      if l.Begin? && l.request == r {
        assert s'.log[..|s.log|] == s.log;
      } else {
        assert s'.log[..s'.txs[r].since] == s.log[..s'.txs[r].since];
      }
    }
  }

  lemma TimesOneMore(ops: seq<Op>, op: Op, r: Id)
    ensures TimesRedeemed(ops + [op], r) == TimesRedeemed(ops, r) + if op.Redeeming? && op.request == r then 1 else 0
  {
    assert (ops + [op])[..|ops|] == ops;
  }

  lemma StepCounts(asks: Asks, s: System, l: Label, r: Id)
    requires Enabled(asks, s, l)
    ensures TimesRedeemed(Next(asks, s, l).log, r) ==
            TimesRedeemed(s.log, r) + if l.Commit? && l.request == r then 1 else 0
  {
    if OpOf(s, l) == [] {
      assert s.log + OpOf(s, l) == s.log;
    } else {
      assert OpOf(s, l) == [OpOf(s, l)[0]];
      TimesOneMore(s.log, OpOf(s, l)[0], r);
    }
  }

  lemma StepKeepsInvariant(asks: Asks, s: System, l: Label)
    requires Invariant(asks, s) && Enabled(asks, s, l)
    ensures Invariant(asks, Next(asks, s, l))
  {
    StepIsSerial(asks, s, l);
    forall r | r in Next(asks, s, l).txs
      ensures SeenIsPast(asks, Next(asks, s, l), r)
      ensures TimesRedeemed(Next(asks, s, l).log, r) == if Next(asks, s, l).txs[r].Done? then 1 else 0
    {
      StepKeepsSeen(asks, s, l, r);
      StepCounts(asks, s, l, r);
    }
  }

  /** Every run of racing requests is equivalent to executing its commits one after the
      other, and leaves each account balanced. */
  lemma {:induction false} RunIsSerial(asks: Asks, s: System, labels: seq<Label>)
    requires Invariant(asks, s) && IsRun(asks, s, labels)
    ensures Invariant(asks, Final(asks, s, labels))
    decreases |labels|
  {
    if labels != [] {
      StepKeepsInvariant(asks, s, labels[0]);
      RunIsSerial(asks, Next(asks, s, labels[0]), labels[1..]);
    }
  }

  lemma StartIsSerial(asks: Asks)
    ensures Invariant(asks, Start(asks))
  {
  }

  lemma {:induction false} LogGrows(asks: Asks, s: System, labels: seq<Label>)
    requires IsRun(asks, s, labels)
    ensures s.log <= Final(asks, s, labels).log
    decreases |labels|
  {
    if labels != [] {
      LogGrows(asks, Next(asks, s, labels[0]), labels[1..]);
    }
  }

  /** Conservation over every interleaving of issuing, redeeming and voiding. */
  lemma MoneyIsConserved(asks: Asks, labels: seq<Label>, id: Id)
    requires ValidAsks(asks) && IsRun(asks, Start(asks), labels)
    requires id in Final(asks, Start(asks), labels).accounts
    ensures Balanced(Final(asks, Start(asks), labels).accounts[id])
  {
    StartIsSerial(asks);
    RunIsSerial(asks, Start(asks), labels);
    LedgerBalances(asks, Final(asks, Start(asks), labels).log, id);
  }

  /** Once void, an account is frozen whatever is still in flight: a redemption that
      read it before the `void` cannot commit after. */
  lemma NoRedemptionAfterVoid(asks: Asks, s: System, labels: seq<Label>, id: Id)
    requires Invariant(asks, s) && IsRun(asks, s, labels)
    requires id in s.accounts && s.accounts[id].status == VOID
    ensures id in Final(asks, s, labels).accounts && Final(asks, s, labels).accounts[id] == s.accounts[id]
  {
    RunIsSerial(asks, s, labels);
    LogGrows(asks, s, labels);
    var log := Final(asks, s, labels).log;
    assert log[..|s.log|] == s.log;
    VoidIsFinal(asks, log, |s.log|, id);
  }

  function RedemptionsBy(reds: seq<Redemption>, r: Id): nat {
    if reds == [] then 0
    else RedemptionsBy(reds[..|reds| - 1], r) + if reds[|reds| - 1].request == r then 1 else 0
  }

  lemma {:induction false} RedemptionsAreLogged(asks: Asks, ops: seq<Op>, r: Id, id: Id)
    requires r in asks && AllLegal(asks, ops) && id in Serial(asks, ops)
    ensures RedemptionsBy(Serial(asks, ops)[id].redemptions, r) == if asks[r].account == id then TimesRedeemed(ops, r) else 0
  {
    if ops != [] {
      var rest, op := ops[..|ops| - 1], ops[|ops| - 1];
      var accounts := Serial(asks, rest);
      if id in accounts {
        RedemptionsAreLogged(asks, rest, r, id);
        if op.Redeeming? && asks[op.request].account == id {
          var reds := Serial(asks, ops)[id].redemptions;
          assert reds[..|reds| - 1] == accounts[id].redemptions;
        }
      } else {
        NeverIssued(asks, rest, r, id);
      }
    }
  }

  lemma {:induction false} NeverIssued(asks: Asks, ops: seq<Op>, r: Id, id: Id)
    requires r in asks && AllLegal(asks, ops) && id !in Serial(asks, ops)
    ensures asks[r].account == id ==> TimesRedeemed(ops, r) == 0
  {
    if ops != [] {
      NeverIssued(asks, ops[..|ops| - 1], r, id);
    }
  }

  /** Across its retries a request is charged once if it reports success and never
      otherwise, and only to the account it named. */
  lemma ChargedExactlyOnSuccess(asks: Asks, labels: seq<Label>, r: Id, id: Id)
    requires r in asks && IsRun(asks, Start(asks), labels)
    requires id in Final(asks, Start(asks), labels).accounts
    ensures var s := Final(asks, Start(asks), labels);
            r in s.txs && RedemptionsBy(s.accounts[id].redemptions, r) == if s.txs[r].Done? && asks[r].account == id then 1 else 0
  {
    StartIsSerial(asks);
    RunIsSerial(asks, Start(asks), labels);
    RedemptionsAreLogged(asks, Final(asks, Start(asks), labels).log, r, id);
  }

  /** The total of r's redemptions. */
  function RedeemedBy(reds: seq<Redemption>, r: Id): int {
    if reds == [] then 0
    else RedeemedBy(reds[..|reds| - 1], r) + if reds[|reds| - 1].request == r then reds[|reds| - 1].amount else 0
  }

  /** What one redemption takes: the amount asked for, and from a package one credit. */
  function Price(kind: Kind, ask: Ask): int {
    match kind
    case GiftCard => ask.amount
    case Package => 1
  }

  /** Every redemption on record took the price of the request that made it. */
  predicate Priced(asks: Asks, a: Account) {
    forall k :: 0 <= k < |a.redemptions| ==>
      a.redemptions[k].request in asks && a.redemptions[k].amount == Price(a.kind, asks[a.redemptions[k].request])
  }

  lemma {:induction false} RedemptionsArePriced(asks: Asks, ops: seq<Op>, id: Id)
    requires id in Serial(asks, ops)
    ensures Priced(asks, Serial(asks, ops)[id])
  {
    if ops != [] {
      var rest := ops[..|ops| - 1];
      if id in Serial(asks, rest) {
        RedemptionsArePriced(asks, rest, id);
      }
    }
  }

  lemma {:induction false} SumOfEqual(reds: seq<Redemption>, r: Id, price: int)
    requires forall k :: 0 <= k < |reds| && reds[k].request == r ==> reds[k].amount == price
    requires RedemptionsBy(reds, r) <= 1
    ensures RedeemedBy(reds, r) == if RedemptionsBy(reds, r) == 1 then price else 0
  {
    if reds != [] {
      SumOfEqual(reds[..|reds| - 1], r, price);
    }
  }

  /** Over every run the redemptions of a request add up to exactly what it asked for if
      it reports success, and to nothing otherwise. */
  lemma ChargedExactlyTheAmount(asks: Asks, labels: seq<Label>, r: Id, id: Id)
    requires r in asks && IsRun(asks, Start(asks), labels)
    requires id in Final(asks, Start(asks), labels).accounts
    ensures var s := Final(asks, Start(asks), labels);
      && r in s.txs
      && RedeemedBy(s.accounts[id].redemptions, r) ==
         if s.txs[r].Done? && asks[r].account == id then Price(s.accounts[id].kind, asks[r]) else 0
  {
    ChargedExactlyOnSuccess(asks, labels, r, id);
    StartIsSerial(asks);
    RunIsSerial(asks, Start(asks), labels);
    RedemptionsArePriced(asks, Final(asks, Start(asks), labels).log, id);
    var a := Final(asks, Start(asks), labels).accounts[id];
    SumOfEqual(a.redemptions, r, Price(a.kind, asks[r]));
  }

  // ---------- what a redemption should do ----------

  /** The account after a redemption, or why there is none, from the account alone. */
  function Redeemed(card: Option<Account>, ask: Ask, r: Id, now: int, appointmentFound: bool): Result<Account, Refusal> {
    if card == None then Failure(NotFound)
    else
      var a := card.value;
      if a.status == VOID then Failure(Voided)
      else if a.expiresAt.Some? && now > a.expiresAt.value then Failure(Expired)
      else if a.balance < 1 then Failure(NothingLeft)
      else if a.balance < Price(a.kind, ask) then Failure(NotEnough)
      else if !appointmentFound then Failure(AppointmentNotFound)
      else
        var left := a.balance - Price(a.kind, ask);
        Success(Account(a.kind, a.initial, left, if left > 0 then ACTIVE else SPENT, a.expiresAt,
                        a.redemptions + [Redemption(r, Price(a.kind, ask))]))
  }

  /** The checks and the write of both services are that. */
  lemma DecidesAsItShould(card: Option<Account>, ask: Ask, r: Id, now: int, appointmentFound: bool)
    requires ask.amount >= 1
    ensures match Redeemed(card, ask, r, now, appointmentFound)
      case Failure(e) => Verdict(card, ask, now, appointmentFound) == Some(e)
      case Success(a) => Verdict(card, ask, now, appointmentFound) == None && card.Some? && AfterRedeem(card.value, r, Taken(card, ask)) == a
  {
  }

  // ---------- the service ----------

  predicate ActsFor(l: Label, r: Id) {
    (l.Begin? || l.Refuse? || l.Commit? || l.Abort?) && l.request == r
  }

  /** A write that names this account. */
  predicate WritesTo(asks: Asks, op: Op, id: Id) {
    || op == Voiding(id)
    || (op.Issuing? && op.id == id)
    || (op.Redeeming? && op.request in asks && asks[op.request].account == id)
  }

  /** The writes numbered ks, in this order and from the given one on, were to the account. */
  predicate Interfered(asks: Asks, log: seq<Op>, from: nat, ks: seq<nat>, id: Id) {
    && (forall i :: 0 <= i < |ks| ==> from <= ks[i] < |log| && WritesTo(asks, log[ks[i]], id))
    && (forall i, j :: 0 <= i < j < |ks| ==> ks[i] < ks[j])
  }

  lemma OneMoreInterfered(asks: Asks, before: seq<Op>, log: seq<Op>, from: nat, ks: seq<nat>, k: nat, id: Id)
    requires from <= |before| && before <= log && Interfered(asks, before, from, ks, id)
    requires |before| <= k < |log| && WritesTo(asks, log[k], id)
    ensures Interfered(asks, log, from, ks + [k], id)
  {
    assert forall i :: 0 <= i < |ks| ==> log[ks[i]] == before[ks[i]];
  }

  /** A commit is held up only by a write to its account. */
  lemma ConflictIsOnTheAccount(asks: Asks, s: System, r: Id)
    requires IsRunning(asks, s, r) && Decision(asks, s, r) == None && !Enabled(asks, s, Commit(r))
    ensures exists k :: s.txs[r].since <= k < |s.log| && WritesTo(asks, s.log[k], asks[r].account)
  {
    var k: nat :| s.txs[r].since <= k < |s.log| && TouchesAccount(asks, s.log[k], asks[r].account);
    assert WritesTo(asks, s.log[k], asks[r].account);
  }

  class Till {
    const asks: Asks
    var accounts: Accounts
    var txs: map<Id, Tx>
    var log: seq<Op>

    constructor (asks: Asks)
      ensures this.asks == asks && State() == Start(asks) && Invariant(asks, State())
    {
      this.asks := asks;
      accounts := map[];
      txs := map r | r in asks :: Waiting(0);
      log := [];
      new;
      StartIsSerial(asks);
    }

    function State(): System
      reads this
    {
      System(accounts, txs, log)
    }

    method Perform(l: Label)
      requires Invariant(asks, State()) && Enabled(asks, State(), l)
      modifies this
      ensures State() == Next(asks, old(State()), l) && Invariant(asks, State())
      ensures forall r :: r in txs && !ActsFor(l, r) ==> r in old(txs) && txs[r] == old(txs)[r]
      ensures l.Refuse? || l.Abort? || l.Begin? ==> log == old(log)
    {
      StepKeepsInvariant(asks, State(), l);
      var s := Next(asks, State(), l);
      accounts, txs, log := s.accounts, s.txs, s.log;
    }

    method LetOthersAct(labels: seq<Label>, me: Id)
      requires Invariant(asks, State()) && me in txs
      modifies this
      ensures Invariant(asks, State()) && me in txs && txs[me] == old(txs)[me]
      ensures old(log) <= log
      ensures labels == [] ==> State() == old(State())
    {
      for i := 0 to |labels|
        invariant Invariant(asks, State()) && me in txs && txs[me] == old(txs)[me]
        invariant old(log) <= log
        invariant i == 0 ==> State() == old(State())
      {
        if Enabled(asks, State(), labels[i]) && !ActsFor(labels[i], me) {
          Perform(labels[i]);
        }
      }
    }

    /** r was charged on the ledger as it stood just before the last write, and `outcome`
        reports what that left. */
    ghost predicate Charged(r: Id, now: int, appointmentFound: bool, outcome: Tx)
      reads this
    {
      && r in asks && log != [] && log[|log| - 1].Redeeming? && log[|log| - 1].request == r
      && ChargedFrom(Serial(asks, log[..|log| - 1]), r, now, appointmentFound, outcome)
    }

    ghost predicate ChargedFrom(before: Accounts, r: Id, now: int, appointmentFound: bool, outcome: Tx)
      requires r in asks
      reads this
    {
      var charged := Redeemed(LookupAccount(before, asks[r].account), asks[r], r, now, appointmentFound);
      && charged.Success? && accounts == before[asks[r].account := charged.value]
      && outcome == Done(charged.value.balance, charged.value.status)
    }

    /** r is refused for a reason that held when k writes had been made. */
    ghost predicate RefusedAt(r: Id, k: nat, now: int, appointmentFound: bool, reason: Refusal)
      reads this
    {
      && r in asks && k <= |log|
      && Redeemed(LookupAccount(Serial(asks, log[..k]), asks[r].account), asks[r], r, now, appointmentFound) == Failure(reason)
    }

    /** What a transaction that answers says and does, on a ledger during the call. */
    ghost predicate Answers(r: Id, from: nat, now: int, appointmentFound: bool, outcome: Tx)
      reads this
    {
      || Charged(r, now, appointmentFound, outcome)
      || (outcome.Refused? && exists k :: k >= from && RefusedAt(r, k, now, appointmentFound, outcome.reason))
    }

    /** The answer on the accounts as they are, with nobody else around. */
    ghost predicate AnswersOn(before: Accounts, r: Id, now: int, appointmentFound: bool, outcome: Tx)
      requires r in asks
      reads this
    {
      match Redeemed(LookupAccount(before, asks[r].account), asks[r], r, now, appointmentFound)
      case Failure(e) => outcome == Refused(e) && accounts == before
      case Success(_) => ChargedFrom(before, r, now, appointmentFound, outcome)
    }

    /** The account r has read refuses it. */
    predicate SeenRefuses(r: Id, t: Tx, reason: Refusal)
      requires t.Running?
    {
      r in asks && Redeemed(t.seen, asks[r], r, t.now, t.appointmentFound) == Failure(reason)
    }

    method RefuseRequest(r: Id)
      requires Invariant(asks, State()) && IsRunning(asks, State(), r) && Decision(asks, State(), r).Some? && ValidAsks(asks)
      modifies this
      ensures Invariant(asks, State()) && log == old(log) && accounts == old(accounts) && r in txs
      ensures txs[r].Refused? && old(txs)[r].since <= |log|
      ensures RefusedAt(r, old(txs)[r].since, old(txs)[r].now, old(txs)[r].appointmentFound, txs[r].reason)
      ensures SeenRefuses(r, old(txs)[r], txs[r].reason)
    {
      var t := txs[r];
      assert SeenIsPast(asks, State(), r);
      DecidesAsItShould(t.seen, asks[r], r, t.now, t.appointmentFound);
      Perform(Refuse(r));
    }

    method ChargeRequest(r: Id)
      requires Invariant(asks, State()) && Enabled(asks, State(), Commit(r)) && ValidAsks(asks)
      modifies this
      ensures Invariant(asks, State()) && r in txs && log == old(log) + [Redeeming(r, old(txs)[r].now, old(txs)[r].appointmentFound)]
      ensures ChargedFrom(old(accounts), r, old(txs)[r].now, old(txs)[r].appointmentFound, txs[r])
    {
      var t := txs[r];
      CommitSeesPresent(asks, State(), r);
      DecidesAsItShould(t.seen, asks[r], r, t.now, t.appointmentFound);
      Perform(Commit(r));
    }

    /** The rest of the transaction, from the checks on. */
    method Finish(r: Id) returns (conflict: bool)
      requires Invariant(asks, State()) && IsRunning(asks, State(), r) && ValidAsks(asks)
      modifies this
      ensures Invariant(asks, State()) && old(log) <= log && r in txs
      ensures conflict ==> log == old(log) && exists k :: old(txs)[r].since <= k < |log| && WritesTo(asks, log[k], asks[r].account)
      ensures conflict ==> txs[r] == if old(txs)[r].attempt < LAST_ATTEMPT then Waiting(old(txs)[r].attempt + 1) else GaveUp
      ensures !conflict ==> Answers(r, old(txs)[r].since, old(txs)[r].now, old(txs)[r].appointmentFound, txs[r])
      ensures !conflict ==> (
        || (txs[r].Refused? && accounts == old(accounts) && SeenRefuses(r, old(txs)[r], txs[r].reason))
        || ChargedFrom(old(accounts), r, old(txs)[r].now, old(txs)[r].appointmentFound, txs[r]))
    {
      if Decision(asks, State(), r).Some? {
        RefuseRequest(r);
        conflict := false;
      } else if Enabled(asks, State(), Commit(r)) {
        ChargeRequest(r);
        assert log[..|log| - 1] == old(log);
        conflict := false;
      } else {
        ConflictIsOnTheAccount(asks, State(), r);
        Perform(Abort(r));
        conflict := true;
      }
    }

    /** The read of a transaction, and what others do after it. */
    method BeginAndWait(r: Id, rivals: seq<Label>, now: int, appointmentFound: bool)
      requires Invariant(asks, State()) && r in asks && r in txs && txs[r].Waiting?
      modifies this
      ensures Invariant(asks, State()) && old(log) <= log && IsRunning(asks, State(), r)
      ensures txs[r] == Running(old(txs)[r].attempt, |old(log)|, LookupAccount(old(accounts), asks[r].account), now, appointmentFound)
      ensures rivals == [] ==> accounts == old(accounts) && log == old(log)
    {
      Perform(Begin(r, now, appointmentFound));
      LetOthersAct(rivals, r);
    }

    /** One transaction of `redeem`; `conflict` is the database's write-conflict error. */
    method TryRedeem(r: Id, rivals: seq<Label>, now: int, appointmentFound: bool) returns (conflict: bool)
      requires Invariant(asks, State()) && r in asks && r in txs && txs[r].Waiting? && ValidAsks(asks)
      modifies this
      ensures Invariant(asks, State()) && old(log) <= log && r in txs
      ensures conflict ==> rivals != [] && exists k :: |old(log)| <= k < |log| && WritesTo(asks, log[k], asks[r].account)
      ensures conflict ==> txs[r] == if old(txs)[r].attempt < LAST_ATTEMPT then Waiting(old(txs)[r].attempt + 1) else GaveUp
      ensures !conflict ==> Answers(r, |old(log)|, now, appointmentFound, txs[r])
      ensures rivals == [] ==> AnswersOn(old(accounts), r, now, appointmentFound, txs[r])
    {
      BeginAndWait(r, rivals, now, appointmentFound);
      conflict := Finish(r);
    }

    /** `redeem` of both services.  Success takes exactly what was asked from the account as
        it stood at that moment and reports what is left; a refusal was right for the ledger
        as it stood at some moment of the call; it gives up only if three writes to the
        account interfered; and with nobody else around, the answer is the one on the accounts as they are. */
    method Redeem(r: Id, rivals: seq<seq<Label>>, clock: seq<int>, appointmentFound: bool) returns (outcome: Tx)
      requires Invariant(asks, State()) && ValidAsks(asks) && r in asks && r in txs && txs[r] == Waiting(0)
      requires |rivals| == |clock| == LAST_ATTEMPT + 1
      modifies this
      ensures Invariant(asks, State()) && old(log) <= log && r in txs && txs[r] == outcome
      ensures (outcome == GaveUp && exists ks :: |ks| == 3 && Interfered(asks, log, |old(log)|, ks, asks[r].account))
        || exists i :: 0 <= i < |clock| && Answers(r, |old(log)|, clock[i], appointmentFound, outcome)
      ensures rivals[0] == [] ==> AnswersOn(old(accounts), r, clock[0], appointmentFound, outcome)
    {
      var attempt := 0;
      ghost var ks: seq<nat> := [];
      while true
        invariant attempt <= LAST_ATTEMPT
        invariant Invariant(asks, State()) && old(log) <= log && r in txs && txs[r] == Waiting(attempt)
        invariant |ks| == attempt && Interfered(asks, log, |old(log)|, ks, asks[r].account)
        invariant attempt == 0 ==> accounts == old(accounts)
        invariant attempt > 0 ==> rivals[0] != []
        decreases LAST_ATTEMPT - attempt
      {
        ghost var before := log;
        var conflict := TryRedeem(r, rivals[attempt], clock[attempt], appointmentFound);
        outcome := txs[r];
        if !conflict {
          assert Answers(r, |old(log)|, clock[attempt], appointmentFound, outcome);
          return;
        }
        ghost var k: nat :| |before| <= k < |log| && WritesTo(asks, log[k], asks[r].account);
        OneMoreInterfered(asks, before, log, |old(log)|, ks, k, asks[r].account);
        ks := ks + [k];
        if attempt == LAST_ATTEMPT {
          return;
        }
        attempt := attempt + 1;
      }
    }

    /** A new card or package: everything it was issued with is there, and nothing is spent. */
    method IssueAccount(id: Id, kind: Kind, amount: int, expiresAt: Option<int>)
      requires Invariant(asks, State()) && id !in accounts && amount >= 1
      modifies this
      ensures Invariant(asks, State()) && txs == old(txs)
      ensures accounts == old(accounts)[id := Account(kind, amount, amount, ACTIVE, expiresAt, [])]
    {
      Perform(Create(id, kind, amount, expiresAt));
    }

    /** `void`: a missing account is an error, any other is voided whatever its status. */
    method Void(id: Id) returns (found: bool)
      requires Invariant(asks, State())
      modifies this
      ensures Invariant(asks, State()) && txs == old(txs)
      ensures found <==> id in old(accounts)
      ensures accounts == if found then old(accounts)[id := old(accounts)[id].(status := VOID)] else old(accounts)
    {
      found := id in accounts;
      if found {
        Perform(Revoke(id));
      }
    }
  }
}
