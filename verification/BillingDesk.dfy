/** The plan and referral services statement by statement, with anybody else acting in
    between. */
module BillingDesk {
  import opened Prelude
  import opened Subscriptions
  import opened ReferralRewards

  ghost predicate Ran(c: Config, s: System, labels: seq<Label>, s': System) {
    IsRun(c, s, labels) && Final(c, s, labels) == s'
  }

  predicate IsStepOf(l: Label, t: Id) {
    (l.ReadEvent? || l.SaveSub? || l.SavePlan? || l.ReadGrant? || l.SaveGrant?) && l.task == t
  }

  /** The steps of task t, in order. */
  function StepsOf(labels: seq<Label>, t: Id): seq<Label> {
    if labels == [] then []
    else StepsOf(labels[..|labels| - 1], t) + if IsStepOf(labels[|labels| - 1], t) then [labels[|labels| - 1]] else []
  }

  lemma {:induction false} StepsAppend(a: seq<Label>, b: seq<Label>, t: Id)
    ensures StepsOf(a + b, t) == StepsOf(a, t) + StepsOf(b, t)
  {
    if b == [] {
      assert a + b == a;
    } else {
      assert (a + b)[..|a + b| - 1] == a + b[..|b| - 1];
      StepsAppend(a, b[..|b| - 1], t);
    }
  }

  /** A run and its continuation. */
  lemma Extend(c: Config, s: System, did: seq<Label>, m: System, more: seq<Label>, s': System, t: Id)
    requires Ran(c, s, did, m) && Ran(c, m, more, s')
    ensures Ran(c, s, did + more, s') && StepsOf(did + more, t) == StepsOf(did, t) + StepsOf(more, t)
  {
    RunAppend(c, s, did, more);
    StepsAppend(did, more, t);
  }

  lemma ExtendOne(c: Config, s: System, did: seq<Label>, m: System, l: Label, t: Id)
    requires Ran(c, s, did, m) && Enabled(m, l)
    ensures Ran(c, s, did + [l], Next(c, m, l))
    ensures StepsOf(did + [l], t) == StepsOf(did, t) + if IsStepOf(l, t) then [l] else []
  {
    RunCons(c, m, l, []);
    assert [l] + [] == [l] && [l][..0] == [];
    Extend(c, s, did, m, [l], Next(c, m, l), t);
  }

  lemma AllReverted(before: map<Id, Business>, after: map<Id, Business>, found: seq<Id>, now: int)
    requires before.Keys == after.Keys && forall b :: b in before && Lapsed(before[b], now) ==> b in found
    requires forall b :: b in after ==> after[b] == if b in found[..|found|] then Expired(before[b], now) else before[b]
    ensures after == map b | b in before :: Expired(before[b], now)
  {
    assert found[..|found|] == found;
  }

  lemma OthersKeepTask(c: Config, s: System, l: Label, t: Id)
    requires Enabled(s, l) && !IsStepOf(l, t) && t in s.tasks
    ensures t in Next(c, s, l).tasks && Next(c, s, l).tasks[t] == s.tasks[t]
    ensures s.businesses.Keys <= Next(c, s, l).businesses.Keys
  {
  }

  class Billing {
    const c: Config
    var businesses: map<Id, Business>
    var subs: map<Id, SubRow>
    var outbox: seq<Notice>
    var referrals: map<Id, Referral>
    var rewards: seq<Reward>
    var credits: seq<Credit>
    var restores: seq<Restore>
    var tasks: map<Id, Task>

    constructor (c: Config, businesses: map<Id, Business>)
      ensures this.c == c && State() == System(businesses, map[], [], map[], [], [], [], map[]) && RewardsOnce(State())
    {
      this.c := c;
      this.businesses := businesses;
      subs, outbox, referrals, rewards, credits, restores, tasks := map[], [], map[], [], [], [], map[];
    }

    function State(): System
      reads this
    {
      System(businesses, subs, outbox, referrals, rewards, credits, restores, tasks)
    }

    method Perform(l: Label)
      requires RewardsOnce(State()) && Enabled(State(), l)
      modifies this
      ensures State() == Next(c, old(State()), l) && RewardsOnce(State())
    {
      StepRewardsOnce(c, State(), l);
      var s := Next(c, State(), l);
      businesses, subs, outbox, referrals := s.businesses, s.subs, s.outbox, s.referrals;
      rewards, credits, restores, tasks := s.rewards, s.credits, s.restores, s.tasks;
    }

    /** Everybody acts but task t, as far as possible in the order given. */
    method LetOthersAct(labels: seq<Label>, t: Id) returns (ghost did: seq<Label>)
      requires RewardsOnce(State()) && t in tasks
      modifies this
      ensures RewardsOnce(State()) && Ran(c, old(State()), did, State()) && StepsOf(did, t) == []
      ensures t in tasks && tasks[t] == old(tasks)[t] && old(businesses).Keys <= businesses.Keys
      ensures labels == [] ==> did == []
    {
      did := [];
      for k := 0 to |labels|
        invariant RewardsOnce(State()) && Ran(c, old(State()), did, State()) && StepsOf(did, t) == []
        invariant t in tasks && tasks[t] == old(tasks)[t] && old(businesses).Keys <= businesses.Keys
        invariant k == 0 ==> did == []
      {
        if !IsStepOf(labels[k], t) && Enabled(State(), labels[k]) {
          OthersKeepTask(c, State(), labels[k], t);
          ExtendOne(c, old(State()), did, State(), labels[k], t);
          did := did + [labels[k]];
          Perform(labels[k]);
        }
      }
    }

    /** The reads of `applySubscription`. */
    method ReadForEvent(t: Id, b: Id, e: StripeSub, now: int)
      requires RewardsOnce(State()) && Enabled(State(), ReadEvent(t, b, e, now))
      modifies this`tasks
      ensures State() == Next(c, old(State()), ReadEvent(t, b, e, now)) && RewardsOnce(State())
    {
      var plan := EffectivePlan(c, e, now);
      var prev, prevSub := businesses[b], Prior(subs, b);
      tasks := tasks[t := EventRead(b, e, plan, prev, prevSub)];
    }

    /** Its upsert of the subscription. */
    method UpsertSubscription(t: Id)
      requires RewardsOnce(State()) && Enabled(State(), SaveSub(t))
      modifies this`subs, this`tasks
      ensures State() == Next(c, old(State()), SaveSub(t)) && RewardsOnce(State())
    {
      var k := tasks[t];
      var e := k.event;
      subs := subs[k.business := SubRow(e.customer, e.id, e.price, k.plan, MapSubStatus(e.status), PeriodEnd(e), e.cancelAtPeriodEnd)];
      tasks := tasks[t := EventSaved(k.business, e, k.plan, k.prev, k.prevSub)];
    }

    /** Its update of the business, and what follows from it. */
    method UpdatePlan(t: Id, now: int)
      requires RewardsOnce(State()) && Enabled(State(), SavePlan(t, now))
      modifies this`businesses, this`outbox, this`rewards, this`tasks
      ensures State() == Next(c, old(State()), SavePlan(t, now)) && RewardsOnce(State())
    {
      StepRewardsOnce(c, State(), SavePlan(t, now));
      var k := tasks[t];
      var b, plan, periodEnd := k.business, k.plan, PeriodEnd(k.event);
      var keep := k.prev.grantEnds.Some? && k.prev.grantEnds.value > now && plan == FREE;
      var resulting := if keep then k.prev.plan else plan;
      businesses := businesses[b := if keep then businesses[b].(planExpiresAt := periodEnd) else Business(plan, periodEnd, None, None)];
      if k.prev.plan != resulting {
        outbox := outbox + [PlanChanged(b, resulting)];
      }
      if k.event.cancelAtPeriodEnd && !(k.prevSub.Some? && k.prevSub.value.cancelAtPeriodEnd) && MapSubStatus(k.event.status) != CANCELED {
        outbox := outbox + [CancellationScheduled(b, periodEnd)];
      }
      assert outbox == old(outbox) + NoticesOf(b, k.prev, k.prevSub, k.event, plan, now);
      if plan != FREE && c.rewardCents > 0 {
        rewards := rewards + [ToClaim(b)];
      }
      tasks := tasks - {t};
    }

    predicate ReadyToSave(t: Id)
      reads this
    {
      t in tasks && tasks[t].EventSaved? && tasks[t].business in businesses
    }

    method UpsertAfter(t: Id, rivals: seq<Label>) returns (ghost did: seq<Label>)
      requires RewardsOnce(State()) && Enabled(State(), SaveSub(t)) && tasks[t].business in businesses
      modifies this
      ensures RewardsOnce(State()) && Ran(c, old(State()), did, State()) && StepsOf(did, t) == [SaveSub(t)]
      ensures ReadyToSave(t)
      ensures rivals == [] ==> did == [SaveSub(t)]
    {
      ghost var start := State();
      did := LetOthersAct(rivals, t);
      ExtendOne(c, start, did, State(), SaveSub(t), t);
      did := did + [SaveSub(t)];
      UpsertSubscription(t);
    }

    method UpdateAfter(t: Id, now: int, rivals: seq<Label>) returns (ghost did: seq<Label>)
      requires RewardsOnce(State()) && ReadyToSave(t)
      modifies this
      ensures RewardsOnce(State()) && t !in tasks
      ensures Ran(c, old(State()), did, State()) && StepsOf(did, t) == [SavePlan(t, now)]
      ensures rivals == [] ==> did == [SavePlan(t, now)]
    {
      ghost var start := State();
      did := LetOthersAct(rivals, t);
      ExtendOne(c, start, did, State(), SavePlan(t, now), t);
      did := did + [SavePlan(t, now)];
      UpdatePlan(t, now);
    }

    /** The writes of `applySubscription`, with others acting before each. */
    method SaveEvent(t: Id, later: int, before: seq<Label>, between: seq<Label>) returns (ghost did: seq<Label>)
      requires RewardsOnce(State()) && Enabled(State(), SaveSub(t)) && tasks[t].business in businesses
      modifies this
      ensures RewardsOnce(State()) && t !in tasks && Ran(c, old(State()), did, State())
      ensures StepsOf(did, t) == [SaveSub(t), SavePlan(t, later)]
      ensures before == [] && between == [] ==> did == [SaveSub(t), SavePlan(t, later)]
    {
      ghost var start := State();
      did := UpsertAfter(t, before);
      ghost var m := State();
      ghost var did2 := UpdateAfter(t, later, between);
      ghost var all := did + did2;
      Extend(c, start, did, m, did2, State(), t);
      assert [SaveSub(t)] + [SavePlan(t, later)] == [SaveSub(t), SavePlan(t, later)];
      did := all;
    }

    /** `applySubscription`, with others acting before each of its writes: a run in which it
        makes exactly its three steps. */
    method ApplySubscription(t: Id, b: Id, e: StripeSub, now: int, later: int, before: seq<Label>, between: seq<Label>)
      returns (ghost did: seq<Label>)
      requires RewardsOnce(State()) && t !in tasks && b in businesses
      modifies this
      ensures RewardsOnce(State()) && t !in tasks && Ran(c, old(State()), did, State())
      ensures StepsOf(did, t) == [ReadEvent(t, b, e, now), SaveSub(t), SavePlan(t, later)]
      ensures before == [] && between == [] && later == now ==>
        State() == Applied(c, old(State()), b, e, now) && EventMeans(c, old(State()), State(), b, e, now)
    {
      ghost var start := State();
      did := [];
      ExtendOne(c, start, did, start, ReadEvent(t, b, e, now), t);
      did := did + [ReadEvent(t, b, e, now)];
      ReadForEvent(t, b, e, now);
      ghost var m := State();
      ghost var did2 := SaveEvent(t, later, before, between);
      Extend(c, start, did, m, did2, State(), t);
      did := did + did2;
      if before == [] && between == [] && later == now {
        UndisturbedIsApplied(c, start, t, b, e, now);
        EventIsReference(c, start, b, e, now);
        assert did == [ReadEvent(t, b, e, now), SaveSub(t), SavePlan(t, now)];
      }
    }

    /** The update of `grantComplimentaryPlan`. */
    method UpdateGrant(t: Id)
      requires RewardsOnce(State()) && Enabled(State(), SaveGrant(t))
      modifies this`businesses, this`tasks
      ensures State() == Next(c, old(State()), SaveGrant(t)) && RewardsOnce(State())
    {
      var k := tasks[t];
      businesses := businesses[k.business := businesses[k.business].(plan := k.plan, grantEnds := Some(k.until), planBefore := Some(k.fallback))];
      tasks := tasks - {t};
    }

    method FinishGrant(t: Id, between: seq<Label>) returns (ghost did: seq<Label>)
      requires RewardsOnce(State()) && Enabled(State(), SaveGrant(t))
      modifies this
      ensures RewardsOnce(State()) && t !in tasks && Ran(c, old(State()), did, State())
      ensures StepsOf(did, t) == [SaveGrant(t)]
      ensures var k := old(tasks)[t];
        && k.business in businesses && businesses[k.business].plan == k.plan
        && businesses[k.business].grantEnds == Some(k.until) && businesses[k.business].planBefore == Some(k.fallback)
      ensures between == [] ==>
        && State() == Next(c, old(State()), SaveGrant(t)) && tasks == old(tasks) - {t}
        && var k := old(tasks)[t];
          businesses == old(businesses)[k.business := Business(k.plan, old(businesses)[k.business].planExpiresAt, Some(k.until), Some(k.fallback))]
    {
      ghost var start := State();
      did := LetOthersAct(between, t);
      ExtendOne(c, start, did, State(), SaveGrant(t), t);
      did := did + [SaveGrant(t)];
      UpdateGrant(t);
    }

    /** `grantComplimentaryPlan`: refused while Stripe bills the business; otherwise a run
        in which it reads, others act, and it writes. */
    method GrantPlan(t: Id, b: Id, plan: Plan, until: int, now: int, between: seq<Label>) returns (granted: bool, ghost did: seq<Label>)
      requires RewardsOnce(State()) && t !in tasks && b in businesses && until > now
      modifies this
      ensures RewardsOnce(State()) && t !in tasks && Ran(c, old(State()), did, State())
      ensures granted <==> !(b in old(subs) && old(subs)[b].status in {ACTIVE, TRIALING, PAST_DUE})
      ensures !granted ==> State() == old(State())
      ensures granted ==> StepsOf(did, t) == [ReadGrant(t, b, plan, until, now), SaveGrant(t)]
      ensures granted ==> b in businesses && businesses[b].plan == plan && businesses[b].grantEnds == Some(until)
      ensures granted ==>
        var was := old(businesses)[b];
        var inForce := was.grantEnds.Some? && now < was.grantEnds.value;
        businesses[b].planBefore == Some(if !inForce then was.plan else if was.planBefore.Some? then was.planBefore.value else FREE)
      ensures granted && between == [] ==>
        && businesses == old(businesses)[b := Business(plan, old(businesses)[b].planExpiresAt, Some(until), businesses[b].planBefore)]
        && subs == old(subs) && outbox == old(outbox) && tasks == old(tasks)
    {
      did := [];
      granted := MayGrant(State(), b);
      if granted {
        ghost var start := State();
        ExtendOne(c, start, did, start, ReadGrant(t, b, plan, until, now), t);
        did := did + [ReadGrant(t, b, plan, until, now)];
        Perform(ReadGrant(t, b, plan, until, now));
        ghost var m := State();
        ghost var did2 := FinishGrant(t, between);
        Extend(c, start, did, m, did2, State(), t);
        did := did + did2;
      }
    }

    /** The status filter of the update decides who may go on to the credit. */
    method ClaimPendingReward(k: nat) returns (referrer: Option<Id>)
      requires RewardsOnce(State()) && k < |rewards| && rewards[k].ToClaim?
      modifies this`referrals, this`rewards
      ensures State() == Next(c, old(State()), Claim(k)) && RewardsOnce(State())
      ensures var b := old(rewards)[k].referred;
        && (referrer.Some? <==> b in old(referrals) && !old(referrals)[b].rewarded)
        && (referrer.Some? ==> referrer.value == old(referrals)[b].referrer && referrals == old(referrals)[b := Referral(referrer.value, true)])
        && (referrer == None ==> referrals == old(referrals))
      ensures referrer.Some? <==> rewards[k].ToCredit?
      ensures referrer.Some? ==> referrer.value == rewards[k].referrer
    {
      StepRewardsOnce(c, State(), Claim(k));
      var b := rewards[k].referred;
      if b in referrals && !referrals[b].rewarded {
        referrer := Some(referrals[b].referrer);
        referrals := referrals[b := referrals[b].(rewarded := true)];
        rewards := rewards[k := ToCredit(referrer.value, b)];
      } else {
        referrer := None;
        rewards := rewards[k := Over];
      }
    }

    /** The call to Stripe that follows a claim: the referrer's balance is credited with the
        configured reward. */
    method CreditReferrer(k: nat)
      requires RewardsOnce(State()) && k < |rewards| && rewards[k].ToCredit?
      modifies this
      ensures RewardsOnce(State())
      ensures credits == old(credits) + [Credit(old(rewards)[k].referrer, old(rewards)[k].referred, c.rewardCents)]
      ensures rewards == old(rewards)[k := Over]
      ensures businesses == old(businesses) && subs == old(subs) && referrals == old(referrals)
    {
      Perform(Pay(k));
    }

    method RecordNewReferral(referred: Id, code: string) returns (recorded: bool)
      requires RewardsOnce(State())
      modifies this`referrals
      ensures State() == Next(c, old(State()), RecordReferral(referred, code)) && RewardsOnce(State())
      ensures recorded <==> referred !in old(referrals) && code != "" && code in c.codes && c.codes[code] != referred
      ensures referrals == if recorded then old(referrals)[referred := Referral(c.codes[code], false)] else old(referrals)
    {
      StepRewardsOnce(c, State(), RecordReferral(referred, code));
      var referrer := FindReferrer(c, code, referred);
      recorded := referrer.Some? && referred !in referrals;
      if recorded {
        referrals := referrals[referred := Referral(referrer.value, false)];
      }
    }

    /** The query of the expiry job. */
    method ReadLapsed(found: seq<Id>, now: int)
      requires RewardsOnce(State()) && Enabled(State(), Lapse(found, now))
      modifies this`restores
      ensures State() == Next(c, old(State()), Lapse(found, now)) && RewardsOnce(State())
      ensures restores == old(restores) + RestoresOf(businesses, found)
    {
      restores := restores + RestoresOf(businesses, found);
    }

    /** One of its writes. */
    method RevertOne(k: nat)
      requires RewardsOnce(State()) && Enabled(State(), Revert(k))
      modifies this`businesses, this`restores
      ensures State() == Next(c, old(State()), Revert(k)) && RewardsOnce(State())
    {
      var b := restores[k].business;
      businesses := businesses[b := businesses[b].(plan := restores[k].plan, grantEnds := None, planBefore := None)];
      restores := restores[k := Restored];
    }

    /** How far the job has come: the first i grants found are reverted. */
    ghost predicate Reverting(before: map<Id, Business>, found: seq<Id>, start: nat, i: nat, now: int)
      requires i <= |found|
      reads this
    {
      && businesses.Keys == before.Keys && |restores| == start + |found|
      && (forall j :: 0 <= j < |found| ==> found[j] in before)
      && (forall j :: i <= j < |found| ==> restores[start + j] == ToRestore(found[j], PlanBefore(before[found[j]])))
      && (forall b :: b in businesses ==> businesses[b] == if b in found[..i] then Expired(before[b], now) else before[b])
    }

    lemma StartReverting(before: map<Id, Business>, found: seq<Id>, start: nat, now: int)
      requires businesses == before && forall i :: 0 <= i < |found| ==> found[i] in before
      requires |restores| == start + |found| && restores[start..] == RestoresOf(before, found)
      ensures Reverting(before, found, start, 0, now)
    {
      assert forall j :: 0 <= j < |found| ==> restores[start + j] == restores[start..][j];
    }

    method RevertNext(ghost before: map<Id, Business>, found: seq<Id>, start: nat, i: nat, now: int)
      requires RewardsOnce(State()) && i < |found| && Reverting(before, found, start, i, now)
      requires Lapsed(before[found[i]], now) && found[i] !in found[..i]
      modifies this`businesses, this`restores
      ensures RewardsOnce(State()) && Reverting(before, found, start, i + 1, now)
    {
      RevertOne(start + i);
      assert forall b :: b in found[..i + 1] <==> b in found[..i] || b == found[i];
    }

    /** The whole job with nothing in between: exactly the lapsed grants expire, in
        whatever order they were found. */
    method ExpireGrants(found: seq<Id>, now: int)
      requires RewardsOnce(State()) && Enabled(State(), Lapse(found, now))
      modifies this`businesses, this`restores
      ensures RewardsOnce(State())
      ensures businesses == map b | b in old(businesses) :: Expired(old(businesses)[b], now)
      ensures forall b :: b in businesses ==>
        var was := old(businesses)[b];
        businesses[b] == if was.grantEnds.Some? && was.grantEnds.value <= now
                         then Business(if was.planBefore.Some? then was.planBefore.value else FREE, was.planExpiresAt, None, None) else was
    {
      var start := |restores|;
      ghost var before := businesses;
      ReadLapsed(found, now);
      StartReverting(before, found, start, now);
      for i := 0 to |found|
        invariant RewardsOnce(State()) && Reverting(before, found, start, i, now)
      {
        RevertNext(before, found, start, i, now);
      }
      AllReverted(before, businesses, found, now);
    }
  }
}
