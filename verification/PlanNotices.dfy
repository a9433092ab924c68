/** What an owner is told about the plan, and when racing deliveries tell it wrong. */
module PlanNotices {
  import opened Prelude
  import opened Subscriptions

  /** The plan the owner of b was last told about. */
  function LastTold(outbox: seq<Notice>, b: Id, initial: Plan): Plan {
    if outbox == [] then initial
    else
      var last := outbox[|outbox| - 1];
      if last.PlanChanged? && last.business == b then last.plan else LastTold(outbox[..|outbox| - 1], b, initial)
  }

  /** Every plan notice tells b's owner something new. */
  predicate NeverRepeats(outbox: seq<Notice>, b: Id, initial: Plan) {
    outbox == [] ||
    (var rest, last := outbox[..|outbox| - 1], outbox[|outbox| - 1];
     && NeverRepeats(rest, b, initial)
     && (last.PlanChanged? && last.business == b ==> last.plan != LastTold(rest, b, initial)))
  }

  lemma ToldMore(outbox: seq<Notice>, n: Notice, b: Id, initial: Plan)
    ensures LastTold(outbox + [n], b, initial) == if n.PlanChanged? && n.business == b then n.plan else LastTold(outbox, b, initial)
    ensures NeverRepeats(outbox + [n], b, initial) <==>
      NeverRepeats(outbox, b, initial) && (n.PlanChanged? && n.business == b ==> n.plan != LastTold(outbox, b, initial))
  {
    assert (outbox + [n])[..|outbox|] == outbox;
  }

  lemma ToldByEvent(outbox: seq<Notice>, more: seq<Notice>, b: Id, initial: Plan)
    requires |more| <= 2 && (|more| == 2 ==> more[1].CancellationScheduled?)
    ensures LastTold(outbox + more, b, initial) ==
      if |more| > 0 && more[0].PlanChanged? && more[0].business == b then more[0].plan else LastTold(outbox, b, initial)
    ensures NeverRepeats(outbox + more, b, initial) <==> (
      && NeverRepeats(outbox, b, initial)
      && (|more| > 0 && more[0].PlanChanged? && more[0].business == b ==> more[0].plan != LastTold(outbox, b, initial)))
  {
    if |more| == 0 {
      assert outbox + more == outbox;
    } else {
      ToldMore(outbox, more[0], b, initial);
      if |more| == 1 {
        assert outbox + more == outbox + [more[0]];
      } else {
        ToldMore(outbox + [more[0]], more[1], b, initial);
        assert outbox + more == outbox + [more[0]] + [more[1]];
      }
    }
  }

  /** Grants and their expiry change the plan without this notice. */
  predicate LeavesPlanAlone(l: Label) {
    !l.SaveGrant? && !l.Revert?
  }

  ghost predicate Told(s: System, b: Id, initial: Plan) {
    b in s.businesses && s.businesses[b].plan == LastTold(s.outbox, b, initial) && NeverRepeats(s.outbox, b, initial)
  }

  /** The write of an event about b whose handler read another plan than the one it now
      overwrites, and the difference matters: exactly one of the two is the event's. */
  predicate Misreports(s: System, l: Label, b: Id)
    requires Enabled(s, l)
  {
    l.SavePlan? && s.tasks[l.task].business == b &&
    (var k := s.tasks[l.task];
     !KeepsGrant(k.prev, k.plan, l.now) && !(k.prev.plan == k.plan <==> s.businesses[b].plan == k.plan))
  }

  lemma ToldByNotices(outbox: seq<Notice>, id: Id, prev: Business, prevSub: Option<SubRow>, e: StripeSub, plan: Plan, now: int,
                      b: Id, initial: Plan)
    ensures var after := outbox + NoticesOf(id, prev, prevSub, e, plan, now);
      var resulting, told := ResultingPlan(prev, plan, now), LastTold(outbox, b, initial);
      && LastTold(after, b, initial) == (if id == b && prev.plan != resulting then resulting else told)
      && (NeverRepeats(after, b, initial) <==>
            NeverRepeats(outbox, b, initial) && (id == b && prev.plan != resulting ==> resulting != told))
  {
    ToldByEvent(outbox, NoticesOf(id, prev, prevSub, e, plan, now), b, initial);
  }

  lemma EventKeepsToldExactly(c: Config, s: System, t: Id, now: int, b: Id, initial: Plan)
    requires Enabled(s, SavePlan(t, now)) && Told(s, b, initial)
    ensures Told(Next(c, s, SavePlan(t, now)), b, initial) <==> !Misreports(s, SavePlan(t, now), b)
  {
    var k := s.tasks[t];
    ToldByNotices(s.outbox, k.business, k.prev, k.prevSub, k.event, k.plan, now, b, initial);
  }

  /** After a step the owner of b is still told exactly the plan in force, and nothing
      twice, if and only if the step is not a write that misreports. */
  lemma StepKeepsToldExactly(c: Config, s: System, l: Label, b: Id, initial: Plan)
    requires Enabled(s, l) && LeavesPlanAlone(l) && Told(s, b, initial)
    ensures Told(Next(c, s, l), b, initial) <==> !Misreports(s, l, b)
  {
    if l.SavePlan? {
      EventKeepsToldExactly(c, s, l.task, l.now, b, initial);
    }
  }

  predicate NeverMisreports(c: Config, s: System, labels: seq<Label>, b: Id)
    requires IsRun(c, s, labels)
    decreases |labels|
  {
    labels == [] || (!Misreports(s, labels[0], b) && NeverMisreports(c, Next(c, s, labels[0]), labels[1..], b))
  }

  /** Over any sequence of events and referrals, in any order, with any repetition and with
      handlers between any two of their statements: as long as none misreports, the owner
      was last told exactly the plan in force, and never told the same twice. */
  lemma {:induction false} NoticesTrackThePlan(c: Config, s: System, labels: seq<Label>, b: Id, initial: Plan)
    requires IsRun(c, s, labels) && forall k :: 0 <= k < |labels| ==> LeavesPlanAlone(labels[k])
    requires Told(s, b, initial) && NeverMisreports(c, s, labels, b)
    ensures Told(Final(c, s, labels), b, initial)
    decreases |labels|
  {
    if labels != [] {
      StepKeepsToldExactly(c, s, labels[0], b, initial);
      NoticesTrackThePlan(c, Next(c, s, labels[0]), labels[1..], b, initial);
    }
  }

  /** Handlers that overwrite the plan they read do not misreport; so an undisturbed event
      never does. */
  lemma CurrentReadReports(s: System, l: Label, b: Id)
    requires Enabled(s, l)
    requires l.SavePlan? && s.tasks[l.task].business == b ==> s.tasks[l.task].prev.plan == s.businesses[b].plan
    ensures !Misreports(s, l, b)
  {
  }

  /** Two deliveries of the same event, both of which read before either writes. */
  const TWICE := [SavePlan(1, 0), SavePlan(2, 0)]

  lemma TwoDeliveriesTellTwice(c: Config)
    ensures var free := Business(FREE, None, None, None);
      var e := StripeSub("sub", "cus", "", "PRO", active, 0, false);
      var s := System(map[7 := free], map[], [], map[], [], [], [], map[1 := EventSaved(7, e, PRO, free, None), 2 := EventSaved(7, e, PRO, free, None)]);
      && Told(s, 7, FREE) && IsRun(c, s, TWICE)
      && Final(c, s, TWICE).outbox == [PlanChanged(7, PRO), PlanChanged(7, PRO)]
  {
    var free := Business(FREE, None, None, None);
    var e := StripeSub("sub", "cus", "", "PRO", active, 0, false);
    var s := System(map[7 := free], map[], [], map[], [], [], [], map[1 := EventSaved(7, e, PRO, free, None), 2 := EventSaved(7, e, PRO, free, None)]);
    var s1 := Next(c, s, TWICE[0]);
    assert s1.outbox == [PlanChanged(7, PRO)];
    var s2 := Next(c, s1, TWICE[1]);
    assert s2.outbox == s1.outbox + [PlanChanged(7, PRO)];
    RunCons(c, s1, TWICE[1], []);
    RunCons(c, s, TWICE[0], [TWICE[1]]);
    assert TWICE == [TWICE[0]] + [TWICE[1]] && [TWICE[1]] == [TWICE[1]] + [];
  }
}
