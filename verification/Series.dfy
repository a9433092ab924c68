/** `createRecurring`: a series of bookings made one after the other. */
module Series {
  import opened Prelude
  import opened Clock
  import opened Calendar
  import opened Guard
  import opened GuardMeaning
  import opened Booking
  import opened BookingMeaning
  import opened Recurrence

  /** The base booking of a series and how it repeats. */
  datatype Plan = Plan(
    business: Id, staff: Id, services: seq<Id>, location: Option<Id>, startsAt: nat, subtotalCents: int,
    confirmed: bool, override: bool, frequency: Frequency, count: nat)

  function TimeOf(p: Plan, i: nat): nat {
    Occurrence(p.frequency, p.startsAt, i)
  }

  function RequestOf(p: Plan, i: nat): Request {
    Create(p.business, p.staff, p.services, p.location, TimeOf(p, i), p.subtotalCents, None, p.confirmed)
  }

  /** One `create` with nobody else around; an override skips the guard. */
  function CreateAlone(c: Config, p: Plan, db: Db, i: nat): Result<Effect, Refusal>
    requires p.services != []
  {
    if p.override then
      var args := CreateArgs(c.world, RequestOf(p, i));
      Success(Effect(None, args, Row(p.business, p.staff, args.service, p.location, args.startsAt, args.endsAt,
        if p.confirmed then CONFIRMED else PENDING, Promo.StoredTotal(p.subtotalCents, 0), 0, None)))
    else Attempt(c, RequestOf(p, i), db, 0)
  }

  ghost predicate ValidPlan(w: World, p: Plan) {
    p.services != [] && (forall s :: s in p.services ==> s in w.services) && p.subtotalCents >= 0
  }

  datatype Made = Made(id: Id, startsAt: int)

  // ---------- splitting the occurrences ----------

  function AllTimes(p: Plan): (times: seq<int>)
    ensures |times| == p.count
  {
    seq(p.count, i requires 0 <= i < p.count => TimeOf(p, i))
  }

  /** The times whose occurrence was (or was not) kept, in order. */
  function Pick(times: seq<int>, kept: seq<bool>, want: bool): seq<int>
    requires |kept| <= |times|
  {
    if kept == [] then []
    else
      var last := |kept| - 1;
      Pick(times, kept[..last], want) + if kept[last] == want then [times[last]] else []
  }

  ghost predicate Increasing(times: seq<int>) {
    forall i, j :: 0 <= i < j < |times| ==> times[i] < times[j]
  }

  lemma {:induction false} PickedTimes(times: seq<int>, kept: seq<bool>, want: bool, t: int)
    requires |kept| <= |times| && t in Pick(times, kept, want)
    ensures exists i :: 0 <= i < |kept| && kept[i] == want && t == times[i]
  {
    var last := |kept| - 1;
    if t in Pick(times, kept[..last], want) {
      PickedTimes(times, kept[..last], want, t);
    }
  }

  lemma {:induction false} PickIncreases(times: seq<int>, kept: seq<bool>, want: bool)
    requires |kept| <= |times| && Increasing(times)
    ensures Increasing(Pick(times, kept, want))
  {
    if kept != [] {
      var last := |kept| - 1;
      PickIncreases(times, kept[..last], want);
      var before := Pick(times, kept[..last], want);
      assert forall i :: 0 <= i < |before| ==> before[i] in before;
      forall t | t in Pick(times, kept[..last], want)
        ensures t < times[last]
      {
        PickedTimes(times, kept[..last], want, t);
      }
    }
  }

  lemma {:induction false} NothingLost(times: seq<int>, kept: seq<bool>)
    requires |kept| <= |times|
    ensures multiset(Pick(times, kept, true)) + multiset(Pick(times, kept, false)) == multiset(times[..|kept|])
  {
    if kept != [] {
      var last := |kept| - 1;
      NothingLost(times, kept[..last]);
      assert times[..|kept|] == times[..last] + [times[last]];
    }
  }

  lemma TimesIncrease(p: Plan)
    ensures Increasing(AllTimes(p))
  {
    forall i, j | 0 <= i < j < p.count
      ensures AllTimes(p)[i] < AllTimes(p)[j]
    {
      OccurrencesIncrease(p.frequency, p.startsAt, i, j);
    }
  }

  /** Whatever was told, the two lists split the occurrence times exactly: each time is
      in one of them, once, and both lists are in increasing order. */
  lemma SeriesIsSplit(p: Plan, told: seq<bool>)
    requires |told| == p.count
    ensures var created, skipped := Pick(AllTimes(p), told, true), Pick(AllTimes(p), told, false);
      && multiset(created) + multiset(skipped) == multiset(AllTimes(p))
      && (forall t :: t in created ==> t !in skipped)
      && Increasing(created) && Increasing(skipped)
  {
    var times := AllTimes(p);
    TimesIncrease(p);
    NothingLost(times, told);
    assert times[..|told|] == times;
    PickIncreases(times, told, true);
    PickIncreases(times, told, false);
    forall t | t in Pick(times, told, true)
      ensures t !in Pick(times, told, false)
    {
      PickedTimes(times, told, true, t);
      if t in Pick(times, told, false) {
        PickedTimes(times, told, false, t);
      }
    }
  }

  // ---------- the loop ----------

  function StartTimes(made: seq<Made>): seq<int> {
    Map(made, (m: Made) => m.startsAt)
  }

  /** One entry of the series' history: the store before an occurrence decides whether
      it is kept, and the store after it has at most that one row more. */
  ghost predicate HistoryStep(c: Config, p: Plan, before: Db, after: Db, i: nat, kept: bool)
    requires p.services != []
  {
    var r := CreateAlone(c, p, before, i);
    && (kept <==> r.Success?)
    && (!kept ==> after == before)
    && (kept ==> AddsRow(before, after, r.value.row))
  }

  /** `HistoryStep` as a relation on stores. */
  ghost function StepOf(c: Config, p: Plan): (Db, Db, nat, bool) -> bool {
    (before: Db, after: Db, i: nat, kept: bool) => p.services != [] && HistoryStep(c, p, before, after, i, kept)
  }

  /** Consecutive stores related by a step. */
  ghost predicate IsHistory(step: (Db, Db, nat, bool) -> bool, history: seq<Db>, kept: seq<bool>) {
    && |history| == |kept| + 1
    && forall i :: 0 <= i < |kept| ==> step(history[i], history[i + 1], i, kept[i])
  }

  lemma HistoryGrows(step: (Db, Db, nat, bool) -> bool, history: seq<Db>, kept: seq<bool>, after: Db, made: bool)
    requires IsHistory(step, history, kept) && step(history[|kept|], after, |kept|, made)
    ensures IsHistory(step, history + [after], kept + [made])
  {
  }

  ghost predicate AddsRow(before: Db, after: Db, r: Row) {
    exists id: Id :: id !in before.rows && after == Db(before.rows[id := r], before.usage)
  }

  /** The state of the loop after |kept| occurrences.  `kept[i]` tells whether the i-th was
      stored, `told[i]` whether `create` also returned: what it does after its commit may
      still fail, and the loop then counts a stored occurrence as skipped. */
  ghost predicate SeriesSoFar(c: Config, p: Plan, history: seq<Db>, kept: seq<bool>, told: seq<bool>, created: seq<Made>, skipped: seq<int>)
    requires p.services != []
  {
    && |told| == |kept| <= p.count && IsHistory(StepOf(c, p), history, kept)
    && StartTimes(created) == Pick(AllTimes(p), told, true)
    && skipped == Pick(AllTimes(p), told, false)
    && Stored(history[|kept|].rows, created)
    && (told != [] ==> told[0])
  }

  /** Told of exactly the stored occurrences whose sends went through. */
  predicate ToldOf(told: seq<bool>, kept: seq<bool>, sends: seq<bool>) {
    |told| == |kept| <= |sends| && forall i :: 0 <= i < |told| ==> (told[i] <==> kept[i] && sends[i])
  }

  ghost predicate Stored(rows: Rows, created: seq<Made>) {
    forall k :: 0 <= k < |created| ==>
      created[k].id in rows && rows[created[k].id].startsAt == created[k].startsAt
  }

  ghost predicate Extends(rows: Rows, rows': Rows) {
    forall id :: id in rows ==> id in rows' && rows'[id] == rows[id]
  }

  lemma StoredMore(before: Rows, after: Rows, created: seq<Made>, made: Made)
    requires Stored(before, created) && Extends(before, after) && made.id in after && after[made.id].startsAt == made.startsAt
    ensures Stored(after, created + [made])
    ensures StartTimes(created + [made]) == StartTimes(created) + [made.startsAt]
  {
  }

  lemma StoredStill(before: Rows, after: Rows, created: seq<Made>)
    requires Stored(before, created) && Extends(before, after)
    ensures Stored(after, created)
  {
  }

  lemma OneMoreCreated(c: Config, p: Plan, history: seq<Db>, kept: seq<bool>, told: seq<bool>, created: seq<Made>, skipped: seq<int>,
                       after: Db, id: Id)
    requires p.services != [] && SeriesSoFar(c, p, history, kept, told, created, skipped) && |kept| < p.count
    requires StepOf(c, p)(history[|kept|], after, |kept|, true) && Extends(history[|kept|].rows, after.rows)
    requires id in after.rows && after.rows[id].startsAt == TimeOf(p, |kept|)
    ensures SeriesSoFar(c, p, history + [after], kept + [true], told + [true], created + [Made(id, TimeOf(p, |kept|))], skipped)
  {
    HistoryGrows(StepOf(c, p), history, kept, after, true);
    assert (told + [true])[..|told|] == told;
    StoredMore(history[|kept|].rows, after.rows, created, Made(id, TimeOf(p, |kept|)));
  }

  lemma OneMoreSkipped(c: Config, p: Plan, history: seq<Db>, kept: seq<bool>, told: seq<bool>, created: seq<Made>, skipped: seq<int>,
                       after: Db, stored: bool)
    requires p.services != [] && SeriesSoFar(c, p, history, kept, told, created, skipped) && 0 < |kept| < p.count
    requires StepOf(c, p)(history[|kept|], after, |kept|, stored) && Extends(history[|kept|].rows, after.rows)
    ensures SeriesSoFar(c, p, history + [after], kept + [stored], told + [false], created, skipped + [TimeOf(p, |kept|)])
  {
    HistoryGrows(StepOf(c, p), history, kept, after, stored);
    assert (told + [false])[..|told|] == told;
    StoredStill(history[|kept|].rows, after.rows, created);
  }

  lemma StepExtends(c: Config, p: Plan, before: Db, after: Db, i: nat, kept: bool)
    requires p.services != [] && HistoryStep(c, p, before, after, i, kept)
    ensures Extends(before.rows, after.rows)
  {
  }

  lemma {:induction false} HistoryExtends(step: (Db, Db, nat, bool) -> bool, history: seq<Db>, kept: seq<bool>, j: nat, i: nat)
    requires IsHistory(step, history, kept) && j <= i < |history|
    requires forall k :: 0 <= k < |kept| ==> Extends(history[k].rows, history[k + 1].rows)
    ensures Extends(history[j].rows, history[i].rows)
    decreases i - j
  {
    if j < i {
      HistoryExtends(step, history, kept, j, i - 1);
      assert Extends(history[i - 1].rows, history[i - 1 + 1].rows);
    }
  }

  lemma StoreGrows(c: Config, p: Plan, history: seq<Db>, kept: seq<bool>, j: nat, i: nat)
    requires p.services != [] && IsHistory(StepOf(c, p), history, kept) && j <= i < |history|
    ensures Extends(history[j].rows, history[i].rows)
  {
    forall k | 0 <= k < |kept|
      ensures Extends(history[k].rows, history[k + 1].rows)
    {
      StepExtends(c, p, history[k], history[k + 1], k, kept[k]);
    }
    HistoryExtends(StepOf(c, p), history, kept, j, i);
  }

  /** Without an override an occurrence is created exactly when the guard accepts it on a
      store that already holds every earlier occurrence of the series. */
  lemma CreatedExactlyIfAccepted(c: Config, p: Plan, history: seq<Db>, kept: seq<bool>, i: nat)
    requires p.services != [] && IsHistory(StepOf(c, p), history, kept) && i < |kept| && !p.override
    ensures kept[i] <==>
      AssertBookableWindow(c.world, history[i].rows, CreateArgs(c.world, RequestOf(p, i))) == Accepted
    ensures forall j :: 0 <= j <= i ==> Extends(history[j].rows, history[i].rows)
    ensures forall j :: 0 <= j < i && kept[j] ==>
      exists id :: id in history[i].rows && id !in history[j].rows && history[i].rows[id].startsAt == TimeOf(p, j)
  {
    assert HistoryStep(c, p, history[i], history[i + 1], i, kept[i]);
    forall j | 0 <= j <= i
      ensures Extends(history[j].rows, history[i].rows)
    {
      StoreGrows(c, p, history, kept, j, i);
    }
    forall j | 0 <= j < i && kept[j]
      ensures exists id :: id in history[i].rows && id !in history[j].rows && history[i].rows[id].startsAt == TimeOf(p, j)
    {
      CreatedIsStored(c, p, history, kept, j, i);
    }
  }

  /** The row an occurrence is stored as. */
  function OccurrenceRow(p: Plan, i: nat, endsAt: int): Row
    requires p.services != []
  {
    Row(p.business, p.staff, p.services[0], p.location, Occurrence(p.frequency, p.startsAt, i), endsAt,
        if p.confirmed then CONFIRMED else PENDING, p.subtotalCents, 0, None)
  }

  /** What the guard is asked for it. */
  ghost predicate AsksForOccurrence(w: World, p: Plan, i: nat, a: Args)
    requires p.services != []
  {
    var startsAt := Occurrence(p.frequency, p.startsAt, i);
    && a.business == p.business && a.staff == p.staff && a.service == p.services[0] && a.location == p.location
    && a.startsAt == startsAt && a.endsAt == startsAt + 60_000 * TotalMinutes(w, p.services)
    && a.exclude == None && Needs(w, p.services, a.resources)
  }

  lemma OccurrenceIsReference(c: Config, p: Plan, db: Db, i: nat, a: Args)
    requires ValidConfig(c) && ValidPlan(c.world, p) && ValidRows(db.rows) && AsksForOccurrence(c.world, p, i, a)
    ensures CreateAlone(c, p, db, i).Success? <==> p.override || ReferenceVerdict(c.world, db.rows, a) == Accepted
    ensures CreateAlone(c, p, db, i).Success? ==>
      CreateAlone(c, p, db, i).value.row == OccurrenceRow(p, i, a.endsAt) && a.startsAt < a.endsAt
  {
    TotalMinutesPositive(c.world, p.services);
    CreateIsReference(c, RequestOf(p, i), db, 0, a);
  }

  lemma {:induction false} HistoryStaysValid(c: Config, p: Plan, history: seq<Db>, kept: seq<bool>, i: nat)
    requires ValidConfig(c) && ValidPlan(c.world, p) && IsHistory(StepOf(c, p), history, kept) && i < |history|
    requires ValidRows(history[0].rows)
    ensures ValidRows(history[i].rows)
  {
    if i > 0 {
      HistoryStaysValid(c, p, history, kept, i - 1);
      assert HistoryStep(c, p, history[i - 1], history[i - 1 + 1], i - 1, kept[i - 1]);
      NeedsAre(c.world, p.services);
      OccurrenceIsReference(c, p, history[i - 1], i - 1, CreateArgs(c.world, RequestOf(p, i - 1)));
    }
  }

  /** An occurrence is stored, as the row the series asks for, exactly with an override or
      if the reference decision accepts it on the store before it. */
  lemma KeptOccurrenceIs(c: Config, p: Plan, history: seq<Db>, kept: seq<bool>, i: nat, a: Args)
    requires ValidConfig(c) && ValidPlan(c.world, p) && IsHistory(StepOf(c, p), history, kept) && i < |kept|
    requires ValidRows(history[0].rows) && AsksForOccurrence(c.world, p, i, a)
    ensures kept[i] <==> p.override || ReferenceVerdict(c.world, history[i].rows, a) == Accepted
    ensures if kept[i] then AddsRow(history[i], history[i + 1], OccurrenceRow(p, i, a.endsAt)) else history[i + 1] == history[i]
  {
    HistoryStaysValid(c, p, history, kept, i);
    assert HistoryStep(c, p, history[i], history[i + 1], i, kept[i]);
    OccurrenceIsReference(c, p, history[i], i, a);
  }

  lemma {:induction false} PickHas(times: seq<int>, kept: seq<bool>, want: bool, i: nat)
    requires i < |kept| <= |times| && kept[i] == want
    ensures times[i] in Pick(times, kept, want)
  {
    if i < |kept| - 1 {
      PickHas(times, kept[..|kept| - 1], want, i);
    }
  }

  lemma PickedExactly(times: seq<int>, kept: seq<bool>, want: bool, i: nat)
    requires i < |kept| <= |times| && Increasing(times)
    ensures times[i] in Pick(times, kept, want) <==> kept[i] == want
  {
    if kept[i] == want {
      PickHas(times, kept, want, i);
    } else if times[i] in Pick(times, kept, want) {
      PickedTimes(times, kept, want, times[i]);
    }
  }

  /** An occurrence's time is in the skipped list exactly if `create` did not return. */
  lemma SkippedExactly(p: Plan, told: seq<bool>, i: nat)
    requires i < |told| <= p.count
    ensures TimeOf(p, i) in Pick(AllTimes(p), told, false) <==> !told[i]
  {
    TimesIncrease(p);
    assert AllTimes(p)[i] == TimeOf(p, i);
    PickedExactly(AllTimes(p), told, false, i);
  }

  /** The store has an appointment at t that was not there before. */
  predicate StoredAnew(before: Rows, after: Rows, t: int) {
    exists id :: id in after && id !in before && after[id].startsAt == t
  }

  /** One turn adds at most the i-th occurrence, and changes nothing else. */
  ghost predicate AddsOnly(p: Plan, before: Rows, after: Rows, i: nat, kept: bool) {
    && Extends(before, after)
    && forall id :: id in after && id !in before ==> kept && after[id].startsAt == TimeOf(p, i)
  }

  lemma StepAddsOnly(c: Config, p: Plan, before: Db, after: Db, i: nat, kept: bool)
    requires p.services != [] && HistoryStep(c, p, before, after, i, kept)
    ensures AddsOnly(p, before.rows, after.rows, i, kept)
  {
  }

  /** Every appointment a series added is one of its kept occurrences. */
  lemma {:induction false} AddedByTheSeries(p: Plan, history: seq<Db>, kept: seq<bool>, n: nat, id: Id)
    requires n < |history| == |kept| + 1
    requires forall k :: 0 <= k < |kept| ==> AddsOnly(p, history[k].rows, history[k + 1].rows, k, kept[k])
    requires id in history[n].rows && id !in history[0].rows
    ensures exists j :: 0 <= j < n && kept[j] && history[n].rows[id].startsAt == TimeOf(p, j)
  {
    if n > 0 {
      assert AddsOnly(p, history[n - 1].rows, history[n - 1 + 1].rows, n - 1, kept[n - 1]);
      if id in history[n - 1].rows {
        AddedByTheSeries(p, history, kept, n - 1, id);
      }
    }
  }

  lemma StoredAnewExactly(c: Config, p: Plan, history: seq<Db>, kept: seq<bool>, i: nat)
    requires p.services != [] && IsHistory(StepOf(c, p), history, kept) && i < |kept| <= p.count && !p.override
    ensures StoredAnew(history[0].rows, history[|kept|].rows, TimeOf(p, i)) <==> kept[i]
  {
    if kept[i] {
      CreatedIsStored(c, p, history, kept, i, |kept|);
      StoreGrows(c, p, history, kept, 0, i);
    }
    if id :| id in history[|kept|].rows && id !in history[0].rows && history[|kept|].rows[id].startsAt == TimeOf(p, i) {
      forall k | 0 <= k < |kept|
        ensures AddsOnly(p, history[k].rows, history[k + 1].rows, k, kept[k])
      {
        StepAddsOnly(c, p, history[k], history[k + 1], k, kept[k]);
      }
      AddedByTheSeries(p, history, kept, |kept|, id);
      TimesIncrease(p);
      assert forall j :: 0 <= j < p.count ==> AllTimes(p)[j] == TimeOf(p, j);
    }
  }

  /** An occurrence is listed as skipped and stored all the same exactly if the guard
      accepted it, on a store with all earlier ones, and something after its commit
      failed. */
  lemma SkippedButStoredExactly(c: Config, p: Plan, history: seq<Db>, kept: seq<bool>, told: seq<bool>, created: seq<Made>,
                                skipped: seq<int>, sends: seq<bool>, i: nat)
    requires p.services != [] && SeriesSoFar(c, p, history, kept, told, created, skipped) && ToldOf(told, kept, sends)
    requires i < |kept| && !p.override
    ensures TimeOf(p, i) in skipped && StoredAnew(history[0].rows, history[|kept|].rows, TimeOf(p, i)) <==>
      AssertBookableWindow(c.world, history[i].rows, CreateArgs(c.world, RequestOf(p, i))) == Accepted && !sends[i]
  {
    SkippedExactly(p, told, i);
    StoredAnewExactly(c, p, history, kept, i);
    CreatedExactlyIfAccepted(c, p, history, kept, i);
  }

  // ---------- a series that reports a stored occurrence as skipped ----------

  /** Half an hour at midnight on two Thursdays in a row, for a provider without bookings. */
  const TWO_THURSDAYS := Plan(0, 0, [0], Some(0), 0, 0, true, false, WEEKLY, 2)

  function Thursday(startsAt: int): Row {
    Row(0, 0, 0, Some(0), startsAt, AddMinutes(startsAt, 30), CONFIRMED, 0, 0, None)
  }

  function OpenShop(): Config {
    Config(OpenOnThursday(0), map[], map[])
  }

  lemma FreeThursday(rows: Rows, day: nat)
    requires ValidRows(rows) && DayOfWeek(day) == 4 && forall id :: id in rows ==> rows[id].endsAt <= day * DAY_MS && rows[id].service == 0
    ensures AssertBookableWindow(OpenOnThursday(0), rows, HalfHourAt(day * DAY_MS)) == Accepted
  {
    var w, a := OpenOnThursday(0), HalfHourAt(day * DAY_MS);
    AnyThursdayAccepts(0, day, day * DAY_MS);
    ThursdayWindow(0);
    AcceptsExactlyBookable(w, rows, a);
    assert Mates(rows, a) == {};
  }

  lemma ThursdayTimes()
    ensures TimeOf(TWO_THURSDAYS, 0) == 0 && TimeOf(TWO_THURSDAYS, 1) == 7 * DAY_MS
  {
  }

  lemma ThursdayArgs(i: nat)
    ensures CreateArgs(OpenShop().world, RequestOf(TWO_THURSDAYS, i)) == HalfHourAt(TimeOf(TWO_THURSDAYS, i))
  {
    assert [0][1..] == [];
  }

  lemma ThursdayOccurrence(i: nat, db: Db, day: nat)
    requires ValidRows(db.rows) && DayOfWeek(day) == 4 && TimeOf(TWO_THURSDAYS, i) == day * DAY_MS
    requires forall id :: id in db.rows ==> db.rows[id].endsAt <= day * DAY_MS && db.rows[id].service == 0
    ensures var r := CreateAlone(OpenShop(), TWO_THURSDAYS, db, i);
      r.Success? && r.value.row == Thursday(TimeOf(TWO_THURSDAYS, i))
  {
    ThursdayArgs(i);
    FreeThursday(db.rows, day);
  }

  /** The store before the series, after its first occurrence, and after its second. */
  function Thursdays(n: nat): Db
    requires n <= 2
  {
    if n == 0 then Db(map[], map[])
    else if n == 1 then Db(map[0 := Thursday(0)], map[])
    else Db(map[0 := Thursday(0), 1 := Thursday(7 * DAY_MS)], map[])
  }

  lemma ThursdayStep(i: nat, before: Db, after: Db, day: nat)
    requires ValidRows(before.rows) && DayOfWeek(day) == 4 && TimeOf(TWO_THURSDAYS, i) == day * DAY_MS
    requires forall id :: id in before.rows ==> before.rows[id].endsAt <= day * DAY_MS && before.rows[id].service == 0
    requires i !in before.rows && after == before.(rows := before.rows[i := Thursday(TimeOf(TWO_THURSDAYS, i))])
    ensures StepOf(OpenShop(), TWO_THURSDAYS)(before, after, i, true) && Extends(before.rows, after.rows)
  {
    ThursdayOccurrence(i, before, day);
    OccurrenceIsAStep(OpenShop(), TWO_THURSDAYS, before, i, i);
  }

  /** Both occurrences are accepted and stored, and what follows the second commit fails:
      the second Thursday is stored, and the owner is told it was skipped. */
  lemma AStoredOccurrenceIsReportedSkipped()
    ensures var history := [Thursdays(0), Thursdays(1), Thursdays(2)];
      SeriesSoFar(OpenShop(), TWO_THURSDAYS, history, [true, true], [true, false], [Made(0, 0)], [7 * DAY_MS])
    ensures ToldOf([true, false], [true, true], [true, false])
    ensures 1 !in Thursdays(0).rows && 1 in Thursdays(2).rows && Thursdays(2).rows[1].startsAt == 7 * DAY_MS
  {
    ThursdayTimes();
    assert Thursdays(1).rows == Thursdays(0).rows[0 := Thursday(0)] && Thursdays(2).rows == Thursdays(1).rows[1 := Thursday(7 * DAY_MS)];
    ThursdayStep(0, Thursdays(0), Thursdays(1), 0);
    ThursdayStep(1, Thursdays(1), Thursdays(2), 7);
    TwoTurns(OpenShop(), TWO_THURSDAYS, Thursdays(0), Thursdays(1), Thursdays(2), 0);
  }

  /** A series of two whose first occurrence is created as `id` and whose second is stored
      but counted as skipped. */
  lemma TwoTurns(c: Config, p: Plan, db0: Db, db1: Db, db2: Db, id: Id)
    requires p.services != [] && p.count == 2
    requires StepOf(c, p)(db0, db1, 0, true) && Extends(db0.rows, db1.rows)
    requires StepOf(c, p)(db1, db2, 1, true) && Extends(db1.rows, db2.rows)
    requires id in db1.rows && db1.rows[id].startsAt == TimeOf(p, 0)
    ensures SeriesSoFar(c, p, [db0, db1, db2], [true, true], [true, false], [Made(id, TimeOf(p, 0))], [TimeOf(p, 1)])
  {
    NoTurn(c, p, db0);
    OneMoreCreated(c, p, [db0], [], [], [], [], db1, id);
    assert [db0] + [db1] == [db0, db1] && [] + [true] == [true] && [] + [Made(id, TimeOf(p, 0))] == [Made(id, TimeOf(p, 0))];
    OneMoreSkipped(c, p, [db0, db1], [true], [true], [Made(id, TimeOf(p, 0))], [], db2, true);
    assert [db0, db1] + [db2] == [db0, db1, db2] && [true] + [true] == [true, true] && [true] + [false] == [true, false];
    assert [] + [TimeOf(p, 1)] == [TimeOf(p, 1)];
  }

  lemma NoTurn(c: Config, p: Plan, db: Db)
    requires p.services != []
    ensures SeriesSoFar(c, p, [db], [], [], [], [])
  {
  }

  lemma CreatedIsStored(c: Config, p: Plan, history: seq<Db>, kept: seq<bool>, j: nat, i: nat)
    requires p.services != [] && IsHistory(StepOf(c, p), history, kept) && j < i < |history| && kept[j] && !p.override
    ensures exists id :: id in history[i].rows && id !in history[j].rows && history[i].rows[id].startsAt == TimeOf(p, j)
  {
    assert HistoryStep(c, p, history[j], history[j + 1], j, kept[j]);
    StoreGrows(c, p, history, kept, j + 1, i);
    var row := CreateAlone(c, p, history[j], j).value.row;
    var id: Id :| id !in history[j].rows && history[j + 1] == Db(history[j].rows[id := row], history[j].usage);
    assert id in history[j + 1].rows;
  }

  lemma OccurrenceKeepsConsistent(c: Config, p: Plan, db: Db, i: nat, id: Id)
    requires ValidConfig(c) && ValidPlan(c.world, p) && id !in db.rows
    requires CreateAlone(c, p, db, i).Success?
    ensures !p.override && Consistent(c.world, db.rows) ==> Consistent(c.world, db.rows[id := CreateAlone(c, p, db, i).value.row])
  {
    if !p.override && Consistent(c.world, db.rows) {
      var e := CreateAlone(c, p, db, i).value;
      AcceptedEffectFits(c, RequestOf(p, i), db, 0);
      FreeForRow(c.world, db.rows, e, id);
      PutKeepsConsistent(c.world, db.rows, id, e.row);
    }
  }

  /** What storing one occurrence does, besides consistency. */
  lemma OccurrenceIsAStep(c: Config, p: Plan, db: Db, i: nat, id: Id)
    requires p.services != [] && id !in db.rows && CreateAlone(c, p, db, i).Success?
    ensures var row := CreateAlone(c, p, db, i).value.row;
      && StepOf(c, p)(db, db.(rows := db.rows[id := row]), i, true)
      && Extends(db.rows, db.rows[id := row]) && row.startsAt == TimeOf(p, i)
  {
    var row := CreateAlone(c, p, db, i).value.row;
    assert AddsRow(db, db.(rows := db.rows[id := row]), row);
  }

  /** The loop of a series that started on `start`, between two turns. */
  ghost predicate Progress(c: Config, p: Plan, sends: seq<bool>, start: Db, now: Db, history: seq<Db>, kept: seq<bool>,
                           told: seq<bool>, created: seq<Made>, skipped: seq<int>)
    requires p.services != []
  {
    && SeriesSoFar(c, p, history, kept, told, created, skipped) && ToldOf(told, kept, sends)
    && history[0] == start && history[|kept|] == now
  }

  lemma ToldMore(sends: seq<bool>, start: Db, now: Db, history: seq<Db>, kept: seq<bool>, told: seq<bool>, stored: bool)
    requires ToldOf(told, kept, sends) && |kept| < |sends| && |history| == |kept| + 1 && history[0] == start
    ensures ToldOf(told + [stored && sends[|kept|]], kept + [stored], sends)
    ensures (history + [now])[0] == start && (history + [now])[|kept| + 1] == now
  {
  }

  /** Why a series could not start. */
  datatype SeriesError = FirstRefused(refusal: Refusal) | SendFailed

  class Shop {
    const c: Config
    var db: Db

    constructor (c: Config, db: Db)
      ensures this.c == c && this.db == db
    {
      this.c, this.db := c, db;
    }

    /** The transaction of `create` for one occurrence. */
    method CreateOccurrence(p: Plan, i: nat) returns (r: Result<Id, Refusal>)
      requires ValidConfig(c) && ValidPlan(c.world, p)
      modifies this
      ensures StepOf(c, p)(old(db), db, i, r.Success?) && Extends(old(db).rows, db.rows)
      ensures r.Success? ==> r.value in db.rows && db.rows[r.value].startsAt == TimeOf(p, i)
      ensures r.Failure? ==> db == old(db) && CreateAlone(c, p, old(db), i) == Failure(r.error)
      ensures !p.override && Consistent(c.world, old(db).rows) ==> Consistent(c.world, db.rows)
    {
      var e := CreateAlone(c, p, db, i);
      if e.Failure? {
        return Failure(e.error);
      }
      ghost var above := Above(db.rows.Keys);
      assert above !in db.rows;
      var id :| id !in db.rows;
      OccurrenceKeepsConsistent(c, p, db, i, id);
      OccurrenceIsAStep(c, p, db, i, id);
      db := db.(rows := db.rows[id := e.value.row]);
      return Success(id);
    }

    /** One turn of the loop: create, then count it as created or skipped. */
    method NextOccurrence(p: Plan, i: nat, sent: bool, created: seq<Made>, skipped: seq<int>, ghost history: seq<Db>,
                          ghost kept: seq<bool>, ghost told: seq<bool>)
      returns (apt: Result<Id, Refusal>, created': seq<Made>, skipped': seq<int>)
      requires ValidConfig(c) && ValidPlan(c.world, p)
      requires SeriesSoFar(c, p, history, kept, told, created, skipped) && |kept| == i < p.count && history[i] == db
      modifies this
      ensures StepOf(c, p)(old(db), db, i, apt.Success?)
      ensures apt.Failure? ==> db == old(db) && CreateAlone(c, p, old(db), i) == Failure(apt.error)
      ensures (apt.Success? && sent) || i > 0 ==>
        SeriesSoFar(c, p, history + [db], kept + [apt.Success?], told + [apt.Success? && sent], created', skipped')
      ensures !p.override && Consistent(c.world, old(db).rows) ==> Consistent(c.world, db.rows)
    {
      created', skipped' := created, skipped;
      apt := CreateOccurrence(p, i);
      if apt.Success? && sent {
        OneMoreCreated(c, p, history, kept, told, created, skipped, db, apt.value);
        created' := created + [Made(apt.value, TimeOf(p, i))];
      } else if i > 0 {
        OneMoreSkipped(c, p, history, kept, told, created, skipped, db, apt.Success?);
        skipped' := skipped + [TimeOf(p, i)];
      }
    }

    /** The series.  `history[i]` is the store before the i-th occurrence; `sends[i]` tells
        whether everything `create` does after its commit goes through. */
    method CreateRecurring(p: Plan, sends: seq<bool>)
      returns (r: Result<(), SeriesError>, created: seq<Made>, skipped: seq<int>,
               ghost history: seq<Db>, ghost kept: seq<bool>, ghost told: seq<bool>)
      requires ValidConfig(c) && ValidPlan(c.world, p) && 1 <= p.count == |sends|
      modifies this
      ensures r.Failure? ==> created == [] && skipped == []
      ensures r.Failure? && r.error.FirstRefused? ==> db == old(db) && CreateAlone(c, p, old(db), 0) == Failure(r.error.refusal)
      ensures r.Failure? && r.error.SendFailed? ==> !sends[0] && StepOf(c, p)(old(db), db, 0, true)
      ensures r.Success? ==>
        |kept| == p.count && Progress(c, p, sends, old(db), db, history, kept, told, created, skipped)
      ensures !p.override && Consistent(c.world, old(db).rows) ==> Consistent(c.world, db.rows)
    {
      created, skipped, history, kept, told := [], [], [db], [], [];
      for i := 0 to p.count
        invariant |kept| == i && Progress(c, p, sends, old(db), db, history, kept, told, created, skipped)
        invariant i == 0 ==> db == old(db)
        invariant !p.override && Consistent(c.world, old(db).rows) ==> Consistent(c.world, db.rows)
      {
        var apt;
        apt, created, skipped := NextOccurrence(p, i, sends[i], created, skipped, history, kept, told);
        if i == 0 && !(apt.Success? && sends[i]) {
          return Failure(if apt.Success? then SendFailed else FirstRefused(apt.error)), [], [], history, kept, told;
        }
        ToldMore(sends, old(db), db, history, kept, told, apt.Success?);
        history, kept, told := history + [db], kept + [apt.Success?], told + [apt.Success? && sends[i]];
      }
      r := Success(());
    }
  }
}
