/** The credit a referrer earns: at most once in every run, and paid exactly if no failure
    comes between its claim and Stripe. */
module ReferralRewards {
  import opened Prelude
  import opened Subscriptions

  /** Rewarded is set before anything is credited, and one claim at a time follows from
      it, so no credit is issued twice; it goes to the recorded referrer. */
  ghost predicate RewardsOnce(s: System) {
    && (forall k :: 0 <= k < |s.rewards| && s.rewards[k].ToCredit? ==> Rewarded(s, s.rewards[k].referred, s.rewards[k].referrer))
    && (forall j, k :: 0 <= j < k < |s.rewards| && s.rewards[j].ToCredit? && s.rewards[k].ToCredit? ==> s.rewards[j].referred != s.rewards[k].referred)
    && (forall i :: 0 <= i < |s.credits| ==> Rewarded(s, s.credits[i].referred, s.credits[i].referrer))
    && (forall i, j :: 0 <= i < j < |s.credits| ==> s.credits[i].referred != s.credits[j].referred)
    && (forall i, k :: 0 <= i < |s.credits| && 0 <= k < |s.rewards| && s.rewards[k].ToCredit? ==> s.credits[i].referred != s.rewards[k].referred)
    && (forall b :: b in s.referrals ==> s.referrals[b].referrer != b)
  }

  predicate Rewarded(s: System, referred: Id, referrer: Id) {
    referred in s.referrals && s.referrals[referred].rewarded && s.referrals[referred].referrer == referrer
  }

  lemma ClaimRewardsOnce(c: Config, s: System, k: nat)
    requires RewardsOnce(s) && Enabled(s, Claim(k))
    ensures RewardsOnce(Next(c, s, Claim(k)))
  {
    var b := s.rewards[k].referred;
    assert b in s.referrals && !s.referrals[b].rewarded ==>
      forall j :: 0 <= j < |s.rewards| && s.rewards[j].ToCredit? ==> s.rewards[j].referred != b;
  }

  lemma PayRewardsOnce(c: Config, s: System, k: nat)
    requires RewardsOnce(s) && Enabled(s, Pay(k))
    ensures RewardsOnce(Next(c, s, Pay(k)))
  {
  }

  lemma StepRewardsOnce(c: Config, s: System, l: Label)
    requires RewardsOnce(s) && Enabled(s, l)
    ensures RewardsOnce(Next(c, s, l))
  {
    match l
    case Claim(k) => ClaimRewardsOnce(c, s, k);
    case Pay(k) => PayRewardsOnce(c, s, k);
    case _ => OthersRewardOnce(s, Next(c, s, l));
  }

  /** Steps that start no credit and keep the referrals there are. */
  lemma OthersRewardOnce(s: System, s': System)
    requires RewardsOnce(s) && s'.credits == s.credits
    requires forall k :: 0 <= k < |s'.rewards| && s'.rewards[k].ToCredit? ==> k < |s.rewards| && s'.rewards[k] == s.rewards[k]
    requires forall b :: b in s.referrals ==> b in s'.referrals && s'.referrals[b] == s.referrals[b]
    requires forall b :: b in s'.referrals ==> s'.referrals[b].referrer != b
    ensures RewardsOnce(s')
  {
  }

  lemma StepCredits(c: Config, s: System, l: Label)
    requires Enabled(s, l)
    ensures s.credits <= Next(c, s, l).credits
    ensures forall i :: |s.credits| <= i < |Next(c, s, l).credits| ==> Next(c, s, l).credits[i].cents == c.rewardCents
  {
  }

  /** Over any sequence of events, replays, crashes between claim and credit, and referral
      attempts, each referred business earns at most one credit, and never for itself. */
  lemma {:induction false} OneCreditPerReferral(c: Config, s: System, labels: seq<Label>)
    requires RewardsOnce(s) && IsRun(c, s, labels)
    ensures RewardsOnce(Final(c, s, labels))
    ensures var credits := Final(c, s, labels).credits;
      && (forall i, j :: 0 <= i < j < |credits| ==> credits[i].referred != credits[j].referred)
      && (forall i :: 0 <= i < |credits| ==> credits[i].referrer != credits[i].referred)
      && s.credits <= credits && (forall i :: |s.credits| <= i < |credits| ==> credits[i].cents == c.rewardCents)
    decreases |labels|
  {
    if labels != [] {
      StepRewardsOnce(c, s, labels[0]);
      StepCredits(c, s, labels[0]);
      OneCreditPerReferral(c, Next(c, s, labels[0]), labels[1..]);
    }
  }

  predicate Paid(s: System, b: Id) {
    exists i :: 0 <= i < |s.credits| && s.credits[i].referred == b
  }

  predicate InFlight(s: System, b: Id) {
    exists k :: 0 <= k < |s.rewards| && s.rewards[k].ToCredit? && s.rewards[k].referred == b
  }

  predicate IsRewarded(s: System, b: Id) {
    b in s.referrals && s.referrals[b].rewarded
  }

  /** A claimed reward has been paid or is on its way. */
  ghost predicate PromiseKept(s: System, b: Id) {
    IsRewarded(s, b) <==> Paid(s, b) || InFlight(s, b)
  }

  /** A crash between the claim of b's reward and the call to Stripe. */
  predicate DropsClaimed(s: System, l: Label, b: Id) {
    l.Drop? && l.reward < |s.rewards| && s.rewards[l.reward].ToCredit? && s.rewards[l.reward].referred == b
  }

  predicate NeverDropsClaimed(c: Config, s: System, labels: seq<Label>, b: Id)
    requires IsRun(c, s, labels)
    decreases |labels|
  {
    labels == [] || (!DropsClaimed(s, labels[0], b) && NeverDropsClaimed(c, Next(c, s, labels[0]), labels[1..], b))
  }

  lemma PaidStays(c: Config, s: System, l: Label, b: Id)
    requires Enabled(s, l)
    ensures Paid(Next(c, s, l), b) <==> Paid(s, b) || (l.Pay? && s.rewards[l.reward].referred == b)
  {
    var s' := Next(c, s, l);
    if i :| 0 <= i < |s.credits| && s.credits[i].referred == b {
      assert s'.credits[i] == s.credits[i];
    }
    if l.Pay? {
      assert s'.credits[|s.credits|].referred == s.rewards[l.reward].referred;
    }
  }

  /** Whether l takes away b's reward in flight: by paying or by dropping it. */
  predicate EndsFlight(s: System, l: Label, b: Id)
    requires Enabled(s, l)
  {
    (l.Pay? && s.rewards[l.reward].referred == b) || DropsClaimed(s, l, b)
  }

  /** A claim puts b's reward in flight if it is the one that flips the referral. */
  lemma FlightAfterClaim(c: Config, s: System, k: nat, b: Id)
    requires Enabled(s, Claim(k))
    ensures InFlight(Next(c, s, Claim(k)), b) <==>
      InFlight(s, b) || (s.rewards[k].referred == b && b in s.referrals && !s.referrals[b].rewarded)
  {
    var s' := Next(c, s, Claim(k));
    if j :| 0 <= j < |s.rewards| && s.rewards[j].ToCredit? && s.rewards[j].referred == b {
      assert s'.rewards[j] == s.rewards[j];
    }
    assert s'.rewards[k].ToCredit? ==> s'.rewards[k].referred == s.rewards[k].referred;
  }

  lemma FlightAfter(c: Config, s: System, l: Label, b: Id)
    requires RewardsOnce(s) && Enabled(s, l)
    ensures InFlight(Next(c, s, l), b) <==>
      || (InFlight(s, b) && !EndsFlight(s, l, b))
      || (l.Claim? && s.rewards[l.reward].referred == b && b in s.referrals && !s.referrals[b].rewarded)
  {
    if l.Claim? {
      FlightAfterClaim(c, s, l.reward, b);
    } else if k :| 0 <= k < |s.rewards| && s.rewards[k].ToCredit? && s.rewards[k].referred == b && !EndsFlight(s, l, b) {
      assert Next(c, s, l).rewards[k] == s.rewards[k];
    }
  }

  lemma RewardedAfter(c: Config, s: System, l: Label, b: Id)
    requires Enabled(s, l)
    ensures IsRewarded(Next(c, s, l), b) <==> IsRewarded(s, b) || (l.Claim? && s.rewards[l.reward].referred == b && b in s.referrals)
  {
  }

  lemma StepKeepsPromiseExactly(c: Config, s: System, l: Label, b: Id)
    requires RewardsOnce(s) && PromiseKept(s, b) && Enabled(s, l)
    ensures PromiseKept(Next(c, s, l), b) <==> !DropsClaimed(s, l, b)
  {
    PaidStays(c, s, l, b);
    FlightAfter(c, s, l, b);
    RewardedAfter(c, s, l, b);
    assert InFlight(s, b) ==> !Paid(s, b);
  }

  /** The claim is written before Stripe is asked, and a failure there is swallowed: a
      reward dropped between the two is never paid by any later event or redelivery. */
  lemma {:induction false} DroppedRewardIsLost(c: Config, s: System, labels: seq<Label>, b: Id)
    requires RewardsOnce(s) && IsRun(c, s, labels)
    requires IsRewarded(s, b) && !Paid(s, b) && !InFlight(s, b)
    ensures IsRewarded(Final(c, s, labels), b) && !Paid(Final(c, s, labels), b) && !InFlight(Final(c, s, labels), b)
    decreases |labels|
  {
    if labels != [] {
      StepRewardsOnce(c, s, labels[0]);
      PaidStays(c, s, labels[0], b);
      FlightAfter(c, s, labels[0], b);
      RewardedAfter(c, s, labels[0], b);
      DroppedRewardIsLost(c, Next(c, s, labels[0]), labels[1..], b);
    }
  }

  /** Over any run, a claimed reward is paid or on its way if and only if no crash hit it
      between its claim and its credit. */
  lemma {:induction false} RewardIsPaidExactly(c: Config, s: System, labels: seq<Label>, b: Id)
    requires RewardsOnce(s) && PromiseKept(s, b) && IsRun(c, s, labels)
    ensures PromiseKept(Final(c, s, labels), b) <==> NeverDropsClaimed(c, s, labels, b)
    decreases |labels|
  {
    if labels != [] {
      StepRewardsOnce(c, s, labels[0]);
      StepKeepsPromiseExactly(c, s, labels[0], b);
      if DropsClaimed(s, labels[0], b) {
        PaidStays(c, s, labels[0], b);
        FlightAfter(c, s, labels[0], b);
        DroppedRewardIsLost(c, Next(c, s, labels[0]), labels[1..], b);
      } else {
        RewardIsPaidExactly(c, Next(c, s, labels[0]), labels[1..], b);
      }
    }
  }

  const SUBSCRIBING := [ReadEvent(5, 2, StripeSub("sub", "cus", "", "PRO", active, 0, false), 0), SaveSub(5), SavePlan(5, 0)]
  const LOSING := [Claim(0), Drop(0)]

  lemma FirstPaidEvent(c: Config, s: System)
    requires c.rewardCents > 0 && s.tasks == map[] && s.rewards == [] && 2 in s.businesses
    ensures IsRun(c, s, SUBSCRIBING)
    ensures var f := Final(c, s, SUBSCRIBING);
      f.rewards == [ToClaim(2)] && f.credits == s.credits && f.referrals == s.referrals
  {
    UndisturbedIsApplied(c, s, 5, 2, StripeSub("sub", "cus", "", "PRO", active, 0, false), 0);
  }

  lemma ClaimedAndDropped(c: Config, s: System)
    requires s.rewards == [ToClaim(2)] && s.credits == [] && s.referrals == map[2 := Referral(1, false)]
    ensures IsRun(c, s, LOSING)
    ensures var f := Final(c, s, LOSING);
      IsRewarded(f, 2) && !Paid(f, 2) && !InFlight(f, 2)
  {
    var s1 := Next(c, s, LOSING[0]);
    assert s1.rewards == [ToCredit(1, 2)];
    RunCons(c, s1, LOSING[1], []);
    RunCons(c, s, LOSING[0], [LOSING[1]]);
    assert LOSING == [LOSING[0]] + [LOSING[1]] && [LOSING[1]] == [LOSING[1]] + [];
  }

  /** A recorded referral, a first paid event, the claim, and a failure at Stripe. */
  lemma ARewardCanBeLost(c: Config)
    requires c.rewardCents > 0 && "PULSE-A" in c.codes && c.codes["PULSE-A"] == 1
    ensures var free := Business(FREE, None, None, None);
      var s := System(map[1 := free, 2 := free], map[], [], map[], [], [], [], map[]);
      var labels := [RecordReferral(2, "PULSE-A")] + (SUBSCRIBING + LOSING);
      && RewardsOnce(s) && PromiseKept(s, 2) && IsRun(c, s, labels)
      && IsRewarded(Final(c, s, labels), 2) && !Paid(Final(c, s, labels), 2) && !InFlight(Final(c, s, labels), 2)
  {
    var free := Business(FREE, None, None, None);
    var s := System(map[1 := free, 2 := free], map[], [], map[], [], [], [], map[]);
    var s1 := Next(c, s, RecordReferral(2, "PULSE-A"));
    FirstPaidEvent(c, s1);
    ClaimedAndDropped(c, Final(c, s1, SUBSCRIBING));
    RunAppend(c, s1, SUBSCRIBING, LOSING);
    RunCons(c, s, RecordReferral(2, "PULSE-A"), SUBSCRIBING + LOSING);
  }

  /** A referral, once recorded, keeps its referrer. */
  lemma {:induction false} FirstReferrerWins(c: Config, s: System, labels: seq<Label>, b: Id)
    requires IsRun(c, s, labels) && b in s.referrals
    ensures b in Final(c, s, labels).referrals && Final(c, s, labels).referrals[b].referrer == s.referrals[b].referrer
    decreases |labels|
  {
    if labels != [] {
      FirstReferrerWins(c, Next(c, s, labels[0]), labels[1..], b);
    }
  }
}
