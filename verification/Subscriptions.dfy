/** A business's own plan: Stripe subscription events that may repeat or arrive late,
    complimentary grants by an administrator, the job that ends them, and the referral
    credit a first paid event earns the referrer.  None of these is a transaction: each
    reads first and writes later, and anything may happen in between. */
module Subscriptions {
  import opened Prelude
  import Calendar

  type Id = Calendar.Id

  datatype Plan = FREE | BASIC | PRO | UNLIMITED

  datatype SubStatus = ACTIVE | TRIALING | PAST_DUE | CANCELED | INCOMPLETE

  datatype StripeStatus = active | trialing | past_due | unpaid | canceled | incomplete_expired | incomplete | paused

  /** A Stripe subscription as an event carries it; an absent text is empty, an absent
      period end is 0. */
  datatype StripeSub = StripeSub(id: string, customer: string, price: string, metadataPlan: string,
                                 status: StripeStatus, periodEndSeconds: int, cancelAtPeriodEnd: bool)

  datatype SubRow = SubRow(customer: string, id: string, price: string, plan: Plan, status: SubStatus,
                           periodEnd: Option<int>, cancelAtPeriodEnd: bool)

  datatype Business = Business(plan: Plan, planExpiresAt: Option<int>, grantEnds: Option<int>, planBefore: Option<Plan>)

  /** Configured prices, the reward, and who owns each referral code. */
  datatype Config = Config(basic: string, pro: string, unlimited: string,
                           basicAnnual: string, proAnnual: string, unlimitedAnnual: string,
                           rewardCents: int, codes: map<string, Id>)

  datatype Notice =
    | PlanChanged(business: Id, plan: Plan)
    | CancellationScheduled(business: Id, accessUntil: Option<int>)

  datatype Referral = Referral(referrer: Id, rewarded: bool)

  /** A reward being granted: claimed in one write, credited at Stripe in a later call. */
  datatype Reward = ToClaim(referred: Id) | ToCredit(referrer: Id, referred: Id) | Over

  /** A plan the expiry job has read and still has to write back. */
  datatype Restore = ToRestore(business: Id, plan: Plan) | Restored

  /** A request between its statements, with what it has read.  `plan` is what an event
      resolved to when its handler started; `fallback` is what a grant will go back to. */
  datatype Task =
    | EventRead(business: Id, event: StripeSub, plan: Plan, prev: Business, prevSub: Option<SubRow>)
    | EventSaved(business: Id, event: StripeSub, plan: Plan, prev: Business, prevSub: Option<SubRow>)
    | GrantRead(business: Id, plan: Plan, until: int, fallback: Plan)

  datatype Credit = Credit(referrer: Id, referred: Id, cents: int)

  const GRACE_MS := 3 * 24 * 60 * 60 * 1000

  // ---------- one event ----------

  function MapSubStatus(s: StripeStatus): SubStatus {
    match s
    case active => ACTIVE
    case trialing => TRIALING
    case past_due => PAST_DUE
    case unpaid => PAST_DUE
    case canceled => CANCELED
    case incomplete_expired => CANCELED
    case incomplete => INCOMPLETE
    case paused => INCOMPLETE
  }

  function PlanForPrice(c: Config, price: string): Plan {
    if price == "" then FREE
    else if price == c.basic then BASIC
    else if price == c.pro then PRO
    else if price == c.unlimited then UNLIMITED
    else if price == c.basicAnnual then BASIC
    else if price == c.proAnnual then PRO
    else if price == c.unlimitedAnnual then UNLIMITED
    else FREE
  }

  function TierFor(c: Config, e: StripeSub): Plan {
    if e.metadataPlan == "BASIC" then BASIC
    else if e.metadataPlan == "PRO" then PRO
    else if e.metadataPlan == "UNLIMITED" then UNLIMITED
    else PlanForPrice(c, e.price)
  }

  function PeriodEnd(e: StripeSub): Option<int> {
    if e.periodEndSeconds == 0 then None else Some(e.periodEndSeconds * 1000)
  }

  /** Active and trialing subscriptions are entitled; a past-due one for three more days. */
  predicate Entitled(e: StripeSub, now: int) {
    match MapSubStatus(e.status)
    case ACTIVE => true
    case TRIALING => true
    case PAST_DUE => PeriodEnd(e).Some? && PeriodEnd(e).value + GRACE_MS > now
    case _ => false
  }

  function EffectivePlan(c: Config, e: StripeSub, now: int): Plan {
    if Entitled(e, now) then TierFor(c, e) else FREE
  }

  function RowOf(e: StripeSub, plan: Plan): SubRow {
    SubRow(e.customer, e.id, e.price, plan, MapSubStatus(e.status), PeriodEnd(e), e.cancelAtPeriodEnd)
  }

  predicate GrantActive(b: Business, now: int) {
    b.grantEnds.Some? && b.grantEnds.value > now
  }

  /** Decided on the business that was read. */
  predicate KeepsGrant(prev: Business, plan: Plan, now: int) {
    GrantActive(prev, now) && plan == FREE
  }

  /** The write to the business: everything, or the period end alone. */
  function AfterEvent(prev: Business, current: Business, e: StripeSub, plan: Plan, now: int): Business {
    if KeepsGrant(prev, plan, now) then current.(planExpiresAt := PeriodEnd(e))
    else Business(plan, PeriodEnd(e), None, None)
  }

  function ResultingPlan(prev: Business, plan: Plan, now: int): Plan {
    if KeepsGrant(prev, plan, now) then prev.plan else plan
  }

  /** Notices compare with what was read, not with what is stored. */
  function NoticesOf(id: Id, prev: Business, prevSub: Option<SubRow>, e: StripeSub, plan: Plan, now: int): seq<Notice> {
    (if prev.plan != ResultingPlan(prev, plan, now) then [PlanChanged(id, ResultingPlan(prev, plan, now))] else [])
    + (if e.cancelAtPeriodEnd && !(prevSub.Some? && prevSub.value.cancelAtPeriodEnd) && MapSubStatus(e.status) != CANCELED
       then [CancellationScheduled(id, PeriodEnd(e))] else [])
  }

  // ---------- the store and its steps ----------

  datatype System = System(businesses: map<Id, Business>, subs: map<Id, SubRow>, outbox: seq<Notice>,
                           referrals: map<Id, Referral>, rewards: seq<Reward>, credits: seq<Credit>,
                           restores: seq<Restore>, tasks: map<Id, Task>)

  datatype Label =
    | ReadEvent(task: Id, business: Id, event: StripeSub, now: int)
    | SaveSub(task: Id)
    | SavePlan(task: Id, now: int)
    | ReadGrant(task: Id, business: Id, plan: Plan, until: int, now: int)
    | SaveGrant(task: Id)
    | Lapse(found: seq<Id>, now: int)
    | Revert(restore: nat)
    | RecordReferral(referred: Id, code: string)
    | Claim(reward: nat)
    | Pay(reward: nat)
    | Drop(reward: nat)

  function Prior(subs: map<Id, SubRow>, b: Id): Option<SubRow> {
    if b in subs then Some(subs[b]) else None
  }

  /** An administrator may grant a plan unless Stripe is billing the business. */
  predicate MayGrant(s: System, b: Id) {
    && b in s.businesses
    && !(b in s.subs && (s.subs[b].status == ACTIVE || s.subs[b].status == TRIALING || s.subs[b].status == PAST_DUE))
  }

  predicate Lapsed(b: Business, now: int) {
    b.grantEnds.Some? && b.grantEnds.value <= now
  }

  /** The query of the expiry job returns the lapsed grants, each once, in any order. */
  predicate FindsLapsed(s: System, found: seq<Id>, now: int) {
    && (forall i :: 0 <= i < |found| ==> found[i] in s.businesses && Lapsed(s.businesses[found[i]], now))
    && (forall b :: b in s.businesses && Lapsed(s.businesses[b], now) ==> b in found)
    && (forall i, j :: 0 <= i < j < |found| ==> found[i] != found[j])
  }

  predicate Enabled(s: System, l: Label) {
    match l
    case ReadEvent(t, b, _, _) => t !in s.tasks && b in s.businesses
    case SaveSub(t) => t in s.tasks && s.tasks[t].EventRead?
    case SavePlan(t, _) => t in s.tasks && s.tasks[t].EventSaved? && s.tasks[t].business in s.businesses
    case ReadGrant(t, b, _, until, now) => t !in s.tasks && MayGrant(s, b) && until > now
    case SaveGrant(t) => t in s.tasks && s.tasks[t].GrantRead? && s.tasks[t].business in s.businesses
    case Lapse(found, now) => FindsLapsed(s, found, now)
    case Revert(k) => k < |s.restores| && s.restores[k].ToRestore? && s.restores[k].business in s.businesses
    case RecordReferral(_, _) => true
    case Claim(k) => k < |s.rewards| && s.rewards[k].ToClaim?
    case Pay(k) => k < |s.rewards| && s.rewards[k].ToCredit?
    case Drop(k) => k < |s.rewards|
  }

  /** The plan a grant will fall back to. */
  function FallbackPlan(b: Business, now: int): Plan {
    if GrantActive(b, now) then (if b.planBefore.Some? then b.planBefore.value else FREE) else b.plan
  }

  function Granted(b: Business, plan: Plan, until: int, fallback: Plan): Business {
    b.(plan := plan, grantEnds := Some(until), planBefore := Some(fallback))
  }

  function PlanBefore(b: Business): Plan {
    if b.planBefore.Some? then b.planBefore.value else FREE
  }

  function Reverted(b: Business, plan: Plan): Business {
    b.(plan := plan, grantEnds := None, planBefore := None)
  }

  /** The expiry job, for one business, read and written at once. */
  function Expired(b: Business, now: int): Business {
    if Lapsed(b, now) then Reverted(b, PlanBefore(b)) else b
  }

  function RestoresOf(businesses: map<Id, Business>, found: seq<Id>): (restores: seq<Restore>)
    requires forall i :: 0 <= i < |found| ==> found[i] in businesses
    ensures |restores| == |found|
  {
    seq(|found|, i requires 0 <= i < |found| => ToRestore(found[i], PlanBefore(businesses[found[i]])))
  }

  /** The owner of a code, never the business that uses it; codes are already trimmed and
      upper-cased. */
  function FindReferrer(c: Config, code: string, exclude: Id): Option<Id> {
    if code != "" && code in c.codes && c.codes[code] != exclude then Some(c.codes[code]) else None
  }

  function Referred(c: Config, s: System, referred: Id, code: string): map<Id, Referral> {
    var referrer := FindReferrer(c, code, referred);
    if referrer == None || referred in s.referrals then s.referrals
    else s.referrals[referred := Referral(referrer.value, false)]
  }

  function AfterSavePlan(c: Config, s: System, t: Id, now: int): System
    requires Enabled(s, SavePlan(t, now))
  {
    var k := s.tasks[t];
    s.(businesses := s.businesses[k.business := AfterEvent(k.prev, s.businesses[k.business], k.event, k.plan, now)],
       outbox := s.outbox + NoticesOf(k.business, k.prev, k.prevSub, k.event, k.plan, now),
       rewards := if k.plan != FREE && c.rewardCents > 0 then s.rewards + [ToClaim(k.business)] else s.rewards,
       tasks := s.tasks - {t})
  }

  function Next(c: Config, s: System, l: Label): System
    requires Enabled(s, l)
  {
    match l
    case ReadEvent(t, b, e, now) =>
      s.(tasks := s.tasks[t := EventRead(b, e, EffectivePlan(c, e, now), s.businesses[b], Prior(s.subs, b))])
    case SaveSub(t) =>
      var k := s.tasks[t];
      s.(subs := s.subs[k.business := RowOf(k.event, k.plan)],
         tasks := s.tasks[t := EventSaved(k.business, k.event, k.plan, k.prev, k.prevSub)])
    case SavePlan(t, now) => AfterSavePlan(c, s, t, now)
    case ReadGrant(t, b, plan, until, now) =>
      s.(tasks := s.tasks[t := GrantRead(b, plan, until, FallbackPlan(s.businesses[b], now))])
    case SaveGrant(t) =>
      var k := s.tasks[t];
      s.(businesses := s.businesses[k.business := Granted(s.businesses[k.business], k.plan, k.until, k.fallback)],
         tasks := s.tasks - {t})
    case Lapse(found, _) => s.(restores := s.restores + RestoresOf(s.businesses, found))
    case Revert(k) =>
      var b := s.restores[k].business;
      s.(businesses := s.businesses[b := Reverted(s.businesses[b], s.restores[k].plan)], restores := s.restores[k := Restored])
    case RecordReferral(referred, code) => s.(referrals := Referred(c, s, referred, code))
    case Claim(k) =>
      var b := s.rewards[k].referred;
      if b in s.referrals && !s.referrals[b].rewarded
      then s.(referrals := s.referrals[b := s.referrals[b].(rewarded := true)],
              rewards := s.rewards[k := ToCredit(s.referrals[b].referrer, b)])
      else s.(rewards := s.rewards[k := Over])
    case Pay(k) =>
      s.(credits := s.credits + [Credit(s.rewards[k].referrer, s.rewards[k].referred, c.rewardCents)],
         rewards := s.rewards[k := Over])
    case Drop(k) => s.(rewards := s.rewards[k := Over])
  }

  predicate IsRun(c: Config, s: System, labels: seq<Label>)
    decreases |labels|
  {
    labels == [] || (Enabled(s, labels[0]) && IsRun(c, Next(c, s, labels[0]), labels[1..]))
  }

  function Final(c: Config, s: System, labels: seq<Label>): System
    requires IsRun(c, s, labels)
    decreases |labels|
  {
    if labels == [] then s else Final(c, Next(c, s, labels[0]), labels[1..])
  }

  lemma RunCons(c: Config, s: System, l: Label, rest: seq<Label>)
    requires Enabled(s, l) && IsRun(c, Next(c, s, l), rest)
    ensures IsRun(c, s, [l] + rest) && Final(c, s, [l] + rest) == Final(c, Next(c, s, l), rest)
  {
    assert ([l] + rest)[1..] == rest;
  }

  lemma RunOfThree(c: Config, s: System, k: Label, l: Label, m: Label)
    requires Enabled(s, k) && Enabled(Next(c, s, k), l) && Enabled(Next(c, Next(c, s, k), l), m)
    ensures IsRun(c, s, [k, l, m]) && Final(c, s, [k, l, m]) == Next(c, Next(c, Next(c, s, k), l), m)
  {
    RunCons(c, Next(c, Next(c, s, k), l), m, []);
    RunCons(c, Next(c, s, k), l, [m]);
    RunCons(c, s, k, [l, m]);
    assert [k, l, m] == [k] + [l, m] && [l, m] == [l] + [m] && [m] == [m] + [];
  }

  lemma {:induction false} RunAppend(c: Config, s: System, a: seq<Label>, b: seq<Label>)
    requires IsRun(c, s, a) && IsRun(c, Final(c, s, a), b)
    ensures IsRun(c, s, a + b) && Final(c, s, a + b) == Final(c, Final(c, s, a), b)
    decreases |a|
  {
    if a == [] {
      assert a + b == b;
    } else {
      assert (a + b)[1..] == a[1..] + b;
      RunAppend(c, Next(c, s, a[0]), a[1..], b);
    }
  }

  // ---------- an undisturbed event, and its replay ----------

  /** All of `applySubscription` with nothing in between. */
  function Applied(c: Config, s: System, b: Id, e: StripeSub, now: int): System
    requires b in s.businesses
  {
    var plan := EffectivePlan(c, e, now);
    s.(subs := s.subs[b := RowOf(e, plan)],
       businesses := s.businesses[b := AfterEvent(s.businesses[b], s.businesses[b], e, plan, now)],
       outbox := s.outbox + NoticesOf(b, s.businesses[b], Prior(s.subs, b), e, plan, now),
       rewards := if plan != FREE && c.rewardCents > 0 then s.rewards + [ToClaim(b)] else s.rewards)
  }

  lemma UndisturbedIsApplied(c: Config, s: System, t: Id, b: Id, e: StripeSub, now: int)
    requires Enabled(s, ReadEvent(t, b, e, now))
    ensures IsRun(c, s, [ReadEvent(t, b, e, now), SaveSub(t), SavePlan(t, now)])
    ensures Final(c, s, [ReadEvent(t, b, e, now), SaveSub(t), SavePlan(t, now)]) == Applied(c, s, b, e, now)
  {
    RunOfThree(c, s, ReadEvent(t, b, e, now), SaveSub(t), SavePlan(t, now));
    var s2 := Next(c, Next(c, s, ReadEvent(t, b, e, now)), SaveSub(t));
    assert s2.tasks - {t} == s.tasks;
  }

  /** Applying an event again changes neither row and sends nothing exactly when the plan
      it resolves to is still the same and no grant it spared has ended since; at a fixed
      time it never does anything. */
  lemma ReplayIsSilentExactly(c: Config, s: System, b: Id, e: StripeSub, now: int, later: int)
    requires b in s.businesses && now <= later
    ensures var s1 := Applied(c, s, b, e, now);
      var s2 := Applied(c, s1, b, e, later);
      (s2.businesses == s1.businesses && s2.subs == s1.subs && s2.outbox == s1.outbox) <==>
        && EffectivePlan(c, e, later) == EffectivePlan(c, e, now)
        && !(KeepsGrant(s.businesses[b], EffectivePlan(c, e, now), now) && !GrantActive(s.businesses[b], later))
    ensures var s1 := Applied(c, s, b, e, now);
      var s2 := Applied(c, s1, b, e, now);
      s2.businesses == s1.businesses && s2.subs == s1.subs && s2.outbox == s1.outbox
  {
    var plan, plan' := EffectivePlan(c, e, now), EffectivePlan(c, e, later);
    var s1 := Applied(c, s, b, e, now);
    assert s1.businesses[b] == AfterEvent(s.businesses[b], s.businesses[b], e, plan, now);
    assert Applied(c, s1, b, e, later).businesses[b] == AfterEvent(s1.businesses[b], s1.businesses[b], e, plan', later);
    assert NoticesOf(b, s1.businesses[b], Prior(s1.subs, b), e, plan, now) == [];
  }

  // ---------- what an undisturbed event does, from its fields alone ----------

  /** The configured prices, in the order they are tried, and the plan each one buys. */
  function PriceList(c: Config): seq<(string, Plan)> {
    [(c.basic, BASIC), (c.pro, PRO), (c.unlimited, UNLIMITED), (c.basicAnnual, BASIC), (c.proAnnual, PRO), (c.unlimitedAnnual, UNLIMITED)]
  }

  predicate FirstPricedAt(c: Config, price: string, k: int) {
    price != "" && 0 <= k < 6 && PriceList(c)[k].0 == price && forall j :: 0 <= j < k ==> PriceList(c)[j].0 != price
  }

  /** The plan a subscription is for: the one its metadata names, else that of its price. */
  ghost predicate IsFor(c: Config, e: StripeSub, plan: Plan) {
    var named := map["BASIC" := BASIC, "PRO" := PRO, "UNLIMITED" := UNLIMITED];
    if e.metadataPlan in named then plan == named[e.metadataPlan]
    else if exists k :: FirstPricedAt(c, e.price, k) then exists k :: FirstPricedAt(c, e.price, k) && plan == PriceList(c)[k].1
    else plan == FREE
  }

  /** Active and trialing subscriptions give their plan, past-due and unpaid ones until 72
      hours after the period they last paid for, any other status nothing. */
  predicate GivesItsPlan(e: StripeSub, now: int) {
    || e.status in {active, trialing}
    || (e.status in {past_due, unpaid} && e.periodEndSeconds != 0 && now < e.periodEndSeconds * 1000 + 259_200_000)
  }

  const STATUS_ON_RECORD := map[active := ACTIVE, trialing := TRIALING, past_due := PAST_DUE, unpaid := PAST_DUE,
    canceled := CANCELED, incomplete_expired := CANCELED, incomplete := INCOMPLETE, paused := INCOMPLETE]

  /** When the period paid for ends, in milliseconds. */
  function PaidUntil(e: StripeSub): Option<int> {
    if e.periodEndSeconds != 0 then Some(1000 * e.periodEndSeconds) else None
  }

  /** The complimentary grant in force that an event for no plan leaves alone. */
  predicate Spares(b: Business, plan: Plan, now: int) {
    plan == FREE && b.grantEnds.Some? && now < b.grantEnds.value
  }

  ghost predicate StoresEvent(s: System, s': System, b: Id, e: StripeSub, plan: Plan, now: int)
    requires b in s.businesses
  {
    && e.status in STATUS_ON_RECORD
    && s'.subs == s.subs[b := SubRow(e.customer, e.id, e.price, plan, STATUS_ON_RECORD[e.status], PaidUntil(e), e.cancelAtPeriodEnd)]
    && s'.businesses == s.businesses[b :=
         if Spares(s.businesses[b], plan, now) then s.businesses[b].(planExpiresAt := PaidUntil(e))
         else Business(plan, PaidUntil(e), None, None)]
  }

  /** The owner hears of a plan that changed, and of a cancellation newly scheduled. */
  ghost predicate TellsOwner(s: System, s': System, b: Id, e: StripeSub, plan: Plan, now: int)
    requires b in s.businesses
  {
    var changed := s.businesses[b].plan != plan && !Spares(s.businesses[b], plan, now);
    var scheduled := e.cancelAtPeriodEnd && (b in s.subs ==> !s.subs[b].cancelAtPeriodEnd) && e.status !in {canceled, incomplete_expired};
    s'.outbox == s.outbox + (if changed then [PlanChanged(b, plan)] else []) + (if scheduled then [CancellationScheduled(b, PaidUntil(e))] else [])
  }

  ghost predicate EventMeans(c: Config, s: System, s': System, b: Id, e: StripeSub, now: int)
    requires b in s.businesses
  {
    exists plan :: (
      && (if GivesItsPlan(e, now) then IsFor(c, e, plan) else plan == FREE)
      && StoresEvent(s, s', b, e, plan, now) && TellsOwner(s, s', b, e, plan, now)
      && s'.rewards == s.rewards + (if plan != FREE && c.rewardCents > 0 then [ToClaim(b)] else []))
  }

  lemma PricesBuyTheirPlan(c: Config, price: string)
    ensures forall k :: FirstPricedAt(c, price, k) ==> PlanForPrice(c, price) == PriceList(c)[k].1
    ensures (forall k :: !FirstPricedAt(c, price, k)) ==> PlanForPrice(c, price) == FREE
  {
    if price != "" && PlanForPrice(c, price) == FREE {
      assert forall k :: 0 <= k < 6 ==> PriceList(c)[k].0 != price;
    } else if price != "" {
      var list := PriceList(c);
      var k := if price == list[0].0 then 0 else if price == list[1].0 then 1 else if price == list[2].0 then 2
        else if price == list[3].0 then 3 else if price == list[4].0 then 4 else 5;
      assert FirstPricedAt(c, price, k);
    }
  }

  lemma TierIsFor(c: Config, e: StripeSub)
    ensures IsFor(c, e, TierFor(c, e))
  {
    PricesBuyTheirPlan(c, e.price);
  }

  /** Which plan an event stores, for every price, status and time, and what follows. */
  lemma EventIsReference(c: Config, s: System, b: Id, e: StripeSub, now: int)
    requires b in s.businesses
    ensures EventMeans(c, s, Applied(c, s, b, e, now), b, e, now)
  {
    TierIsFor(c, e);
    var plan, s' := EffectivePlan(c, e, now), Applied(c, s, b, e, now);
    assert GivesItsPlan(e, now) <==> Entitled(e, now);
    assert StoresEvent(s, s', b, e, plan, now);
    assert TellsOwner(s, s', b, e, plan, now);
  }
}
