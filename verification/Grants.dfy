/** Complimentary grants: what spares them, what ends them, and what they fall back to. */
module Grants {
  import opened Prelude
  import opened Subscriptions

  // ---------- a grant in force ----------

  /** Time stays before `until`, events about b resolve to FREE, and nobody else grants b a
      plan; everything about other businesses is unrestricted. */
  predicate Spares(c: Config, l: Label, b: Id, until: int) {
    match l
    case ReadEvent(_, x, e, now) => x == b ==> EffectivePlan(c, e, now) == FREE
    case SavePlan(_, now) => now < until
    case ReadGrant(_, x, _, _, _) => x != b
    case Lapse(_, now) => now < until
    case _ => true
  }

  predicate SameGrant(a: Business, b: Business) {
    a.plan == b.plan && a.grantEnds == b.grantEnds && a.planBefore == b.planBefore
  }

  /** No expiry job is about to write b's plan. */
  predicate NoRestoreFor(s: System, b: Id) {
    forall k :: 0 <= k < |s.restores| && s.restores[k].ToRestore? ==> s.restores[k].business != b
  }

  /** A task about b is a FREE event that has read the grant. */
  predicate HasSeen(k: Task, b: Id, until: int) {
    k.business == b ==> !k.GrantRead? && k.plan == FREE && k.prev.grantEnds == Some(until)
  }

  predicate Holds(s: System, b: Id, until: int) {
    && b in s.businesses && s.businesses[b].grantEnds == Some(until) && NoRestoreFor(s, b)
    && forall t :: t in s.tasks ==> HasSeen(s.tasks[t], b, until)
  }

  lemma StepSparesGrant(c: Config, s: System, l: Label, b: Id, until: int)
    requires Enabled(s, l) && Spares(c, l, b, until) && Holds(s, b, until)
    ensures Holds(Next(c, s, l), b, until) && SameGrant(Next(c, s, l).businesses[b], s.businesses[b])
  {
  }

  /** Stale cancellations and failures never end a grant in force that they have read. */
  lemma {:induction false} GrantSurvives(c: Config, s: System, labels: seq<Label>, b: Id, until: int)
    requires IsRun(c, s, labels) && forall k :: 0 <= k < |labels| ==> Spares(c, labels[k], b, until)
    requires Holds(s, b, until)
    ensures Holds(Final(c, s, labels), b, until) && SameGrant(Final(c, s, labels).businesses[b], s.businesses[b])
    decreases |labels|
  {
    if labels != [] {
      assert Spares(c, labels[0], b, until);
      StepSparesGrant(c, s, labels[0], b, until);
      GrantSurvives(c, Next(c, s, labels[0]), labels[1..], b, until);
    }
  }

  /** The write of an event leaves a grant in force alone exactly if the event resolved to
      FREE and the business, when it was read, already had an active grant. */
  lemma EventSparesGrantExactly(c: Config, s: System, t: Id, now: int)
    requires Enabled(s, SavePlan(t, now)) && GrantActive(s.businesses[s.tasks[t].business], now)
    ensures var k := s.tasks[t];
      SameGrant(Next(c, s, SavePlan(t, now)).businesses[k.business], s.businesses[k.business]) <==>
        k.plan == FREE && GrantActive(k.prev, now)
  {
  }

  /** A cancellation that read the business before the grant ends it. */
  lemma AStaleCancellationEndsAGrant(c: Config)
    ensures var free := Business(FREE, None, None, None);
      var e := StripeSub("sub", "cus", "", "", canceled, 0, false);
      var s := System(map[7 := free], map[], [], map[], [], [], [],
                      map[1 := EventSaved(7, e, FREE, free, None), 2 := GrantRead(7, PRO, 100, FREE)]);
      Enabled(s, SaveGrant(2)) && (
        var s1 := Next(c, s, SaveGrant(2));
        s1.businesses[7].plan == PRO && Enabled(s1, SavePlan(1, 1)) && (
          var s2 := Next(c, s1, SavePlan(1, 1));
          s2.businesses[7].plan == FREE && s2.businesses[7].grantEnds == None))
  {
  }

  // ---------- the end of a grant ----------

  /** The expiry job has something to write for b. */
  predicate WillRestore(s: System, b: Id, k: nat) {
    k < |s.restores| && s.restores[k].ToRestore? && s.restores[k].business == b
  }

  lemma LapseFinds(c: Config, s: System, b: Id, found: seq<Id>, now: int)
    requires FindsLapsed(s, found, now) && b in s.businesses && Lapsed(s.businesses[b], now) && NoRestoreFor(s, b)
    ensures var s1 := Next(c, s, Lapse(found, now));
      && (exists k :: WillRestore(s1, b, k))
      && (forall k: nat :: WillRestore(s1, b, k) ==> s1.restores[k].plan == PlanBefore(s.businesses[b]))
  {
    var s1 := Next(c, s, Lapse(found, now));
    var i :| 0 <= i < |found| && found[i] == b;
    assert WillRestore(s1, b, |s.restores| + i);
    assert forall k :: 0 <= k < |s.restores| ==> s1.restores[k] == s.restores[k];
    assert forall k :: |s.restores| <= k < |s1.restores| ==> s1.restores[k] == RestoresOf(s.businesses, found)[k - |s.restores|];
  }

  /** The job ends b's grant: it will write, and whatever it writes brings back `plan`. */
  ghost predicate WillBringBack(c: Config, s: System, b: Id, plan: Plan) {
    && b in s.businesses
    && (exists k :: WillRestore(s, b, k))
    && (forall k: nat :: WillRestore(s, b, k) ==> IsBackTo(Next(c, s, Revert(k)), b, plan))
  }

  lemma LapseBringsBack(c: Config, s: System, b: Id, until: int, found: seq<Id>, ending: int)
    requires Holds(s, b, until) && until <= ending && Enabled(s, Lapse(found, ending))
    ensures WillBringBack(c, Next(c, s, Lapse(found, ending)), b, PlanBefore(s.businesses[b]))
  {
    LapseFinds(c, s, b, found, ending);
  }

  /** No other request about b is between its statements. */
  predicate NoTaskFor(s: System, b: Id) {
    forall t :: t in s.tasks ==> s.tasks[t].business != b
  }

  /** All of `grantComplimentaryPlan` with nothing in between. */
  function GrantedNow(c: Config, s: System, t: Id, b: Id, plan: Plan, until: int, now: int): System
    requires Enabled(s, ReadGrant(t, b, plan, until, now))
  {
    Next(c, Next(c, s, ReadGrant(t, b, plan, until, now)), SaveGrant(t))
  }

  lemma GrantedNowHolds(c: Config, s: System, t: Id, b: Id, plan: Plan, until: int, now: int)
    requires Enabled(s, ReadGrant(t, b, plan, until, now)) && NoTaskFor(s, b) && NoRestoreFor(s, b)
    ensures var s1 := GrantedNow(c, s, t, b, plan, until, now);
      Holds(s1, b, until) && s1.businesses[b] == Granted(s.businesses[b], plan, until, FallbackPlan(s.businesses[b], now))
  {
  }

  /** A grant, whatever spares it, and its expiry bring back the plan it replaced. */
  lemma GrantRoundTrip(c: Config, s: System, t: Id, b: Id, plan: Plan, until: int, now: int, labels: seq<Label>, found: seq<Id>, ending: int)
    requires Enabled(s, ReadGrant(t, b, plan, until, now)) && NoTaskFor(s, b) && NoRestoreFor(s, b) && until <= ending
    requires IsRun(c, GrantedNow(c, s, t, b, plan, until, now), labels)
    requires forall k :: 0 <= k < |labels| ==> Spares(c, labels[k], b, until)
    requires Enabled(Final(c, GrantedNow(c, s, t, b, plan, until, now), labels), Lapse(found, ending))
    ensures WillBringBack(c, Next(c, Final(c, GrantedNow(c, s, t, b, plan, until, now), labels), Lapse(found, ending)), b,
                          FallbackPlan(s.businesses[b], now))
  {
    GrantedNowHolds(c, s, t, b, plan, until, now);
    var s1 := GrantedNow(c, s, t, b, plan, until, now);
    GrantSurvives(c, s1, labels, b, until);
    LapseBringsBack(c, Final(c, s1, labels), b, until, found, ending);
  }

  predicate IsBackTo(s: System, b: Id, plan: Plan) {
    b in s.businesses && s.businesses[b].plan == plan && s.businesses[b].grantEnds == None && s.businesses[b].planBefore == None
  }

  // ---------- an expiry job that writes late ----------

  predicate LeavesBusiness(s: System, l: Label, b: Id)
    requires Enabled(s, l)
  {
    match l
    case SavePlan(t, _) => s.tasks[t].business != b
    case SaveGrant(t) => s.tasks[t].business != b
    case Revert(k) => s.restores[k].business != b
    case _ => true
  }

  predicate LeaveBusiness(c: Config, s: System, labels: seq<Label>, b: Id)
    requires IsRun(c, s, labels)
    decreases |labels|
  {
    labels == [] || (LeavesBusiness(s, labels[0], b) && LeaveBusiness(c, Next(c, s, labels[0]), labels[1..], b))
  }

  /** If nothing touches b between the read and the write, the late write is the expiry. */
  lemma {:induction false} LateRevertExpires(c: Config, s: System, labels: seq<Label>, b: Id, k: nat, now: int)
    requires IsRun(c, s, labels) && LeaveBusiness(c, s, labels, b)
    requires b in s.businesses && Lapsed(s.businesses[b], now)
    requires WillRestore(s, b, k) && s.restores[k].plan == PlanBefore(s.businesses[b])
    ensures var f := Final(c, s, labels);
      && WillRestore(f, b, k) && Enabled(f, Revert(k))
      && Next(c, f, Revert(k)).businesses[b] == Expired(s.businesses[b], now)
    decreases |labels|
  {
    if labels != [] {
      assert LeavesBusiness(s, labels[0], b);
      LateRevertExpires(c, Next(c, s, labels[0]), labels[1..], b, k, now);
    }
  }

  /** An event written between the job's read and its write keeps its plan exactly when it
      resolves to the plan the job had read. */
  lemma EventBeforeLateRevertStaysExactly(c: Config, s: System, t: Id, now: int, b: Id, k: nat)
    requires Enabled(s, SavePlan(t, now)) && s.tasks[t].business == b && !GrantActive(s.tasks[t].prev, now) && WillRestore(s, b, k)
    ensures var plan, s1 := s.tasks[t].plan, Next(c, s, SavePlan(t, now));
      && s1.businesses[b].plan == plan && Enabled(s1, Revert(k))
      && (Next(c, s1, Revert(k)).businesses[b].plan == plan <==> plan == s.restores[k].plan)
  {
  }

  /** A business that subscribes to PRO while the job is at work ends up on FREE. */
  lemma LateRevertTakesAPaidPlan(c: Config)
    ensures var b := Business(UNLIMITED, None, Some(100), Some(FREE));
      var e := StripeSub("sub", "cus", "", "PRO", active, 0, false);
      var s := System(map[1 := b], map[], [], map[], [], [], [], map[]);
      Enabled(s, Lapse([1], 100)) && (
        var s1 := Next(c, s, Lapse([1], 100));
        Enabled(s1, ReadEvent(9, 1, e, 101)) && (
          var s2 := Applied(c, s1, 1, e, 101);
          && s2.businesses[1].plan == PRO
          && Enabled(s2, Revert(0)) && Next(c, s2, Revert(0)).businesses[1].plan == FREE))
  {
    assert [1][0] == 1;
  }

  // ---------- what a grant falls back to ----------

  /** A grant saved late over a business without one falls back to the plan it replaces
      exactly if that is still the plan it had read. */
  lemma LateGrantFallsBackExactly(c: Config, s: System, t: Id, now: int)
    requires Enabled(s, SaveGrant(t)) && !GrantActive(s.businesses[s.tasks[t].business], now)
    ensures var k := s.tasks[t];
      Next(c, s, SaveGrant(t)).businesses[k.business].planBefore == Some(FallbackPlan(s.businesses[k.business], now)) <==>
        s.businesses[k.business].plan == k.fallback
  {
  }

  /** PRO was bought while the grant was being made: when the grant ends the business falls
      back to FREE, although Stripe bills it. */
  lemma AGrantOverAFreshSubscription(c: Config)
    ensures var free := Business(FREE, None, None, None);
      var e := StripeSub("sub", "cus", "", "PRO", active, 0, false);
      var s := System(map[7 := free], map[], [], map[], [], [], [], map[2 := GrantRead(7, UNLIMITED, 100, FREE)]);
      var s1 := Applied(c, s, 7, e, 0);
      && s1.businesses[7].plan == PRO && !MayGrant(s1, 7) && Enabled(s1, SaveGrant(2))
      && Expired(Next(c, s1, SaveGrant(2)).businesses[7], 100).plan == FREE
  {
  }

  /** Two grants in a row give the original plan back exactly when the second is made
      while the first is in force (or granted nothing): made after the first ended but
      before the expiry job ran, it takes the complimentary plan for the original. */
  lemma RegrantRestoresExactly(b: Business, p1: Plan, u1: int, t1: int, p2: Plan, u2: int, t2: int, ending: int)
    requires t1 < u1 && t1 <= t2 < u2 <= ending
    ensures var once := Granted(b, p1, u1, FallbackPlan(b, t1));
      var f := Expired(Granted(once, p2, u2, FallbackPlan(once, t2)), ending);
      f.plan == FallbackPlan(b, t1) <==> t2 < u1 || p1 == FallbackPlan(b, t1)
  {
  }

  /** PRO for a FREE business until 10, then UNLIMITED granted at 20: it ends on PRO. */
  lemma LateRegrantKeepsThePlan()
    ensures var b := Business(FREE, None, None, None);
      var once := Granted(b, PRO, 10, FallbackPlan(b, 0));
      Expired(Granted(once, UNLIMITED, 30, FallbackPlan(once, 20)), 30).plan == PRO != FallbackPlan(b, 0)
  {
  }
}
