/** Reminder jobs: a queue keyed by kind and appointment, kept in step with appointments
    by operations that write the appointment first and the queue afterwards, while jobs
    fire at any moment in between. */
module Reminders {
  import opened Prelude
  import opened Calendar
  import Unguarded

  datatype Kind = H72 | H24 | H2

  const HOUR_MS := 60 * 60 * 1000

  function Lead(k: Kind): int {
    match k
    case H72 => 72 * HOUR_MS
    case H24 => 24 * HOUR_MS
    case H2 => 2 * HOUR_MS
  }

  datatype Apt = Apt(startsAt: int, status: Status)

  datatype Key = Key(kind: Kind, apt: Id)

  /** Start the job expects its appointment to have. */
  type Queue = map<Key, int>

  /** The queue half of an operation.  The deposit webhook reads the appointment again
      before scheduling; every other operation uses the row its write returned. */
  datatype Chore = Chore(apt: Id, cancel: bool, schedule: bool, startsAt: Option<int>)

  /** A reminder that went out: the start its job expected, and the appointment as it was
      then. */
  datatype Sent = Sent(key: Key, expected: int, startsAt: int, status: Status, at: int)

  datatype System = System(apts: map<Id, Apt>, queue: Queue, chores: map<Id, Chore>, sent: seq<Sent>, clock: int)

  // ---------- the queue ----------

  /** Adding a job whose id is still queued does nothing. */
  function Add(q: Queue, key: Key, expected: int, wanted: bool): Queue {
    if wanted && key !in q then q[key := expected] else q
  }

  /** `scheduleReminders`: kinds the plan and settings allow, if there is time left. */
  function Scheduled(q: Queue, a: Id, startsAt: int, clock: int, allowed: set<Kind>): Queue {
    var q72 := Add(q, Key(H72, a), startsAt, startsAt - clock - Lead(H72) > 0 && H72 in allowed);
    var q24 := Add(q72, Key(H24, a), startsAt, startsAt - clock - Lead(H24) > 0 && H24 in allowed);
    Add(q24, Key(H2, a), startsAt, startsAt - clock - Lead(H2) > 0 && H2 in allowed)
  }

  function Cancelled(q: Queue, a: Id): Queue {
    q - {Key(H72, a), Key(H24, a), Key(H2, a)}
  }

  lemma ScheduledHas(q: Queue, a: Id, startsAt: int, clock: int, allowed: set<Kind>, key: Key)
    ensures key in Scheduled(q, a, startsAt, clock, allowed) <==>
      key in q || (key.apt == a && key.kind in allowed && clock < startsAt - Lead(key.kind))
    ensures key in Scheduled(q, a, startsAt, clock, allowed) ==>
      Scheduled(q, a, startsAt, clock, allowed)[key] == if key in q then q[key] else startsAt
  {
    assert key.kind == H72 || key.kind == H24 || key.kind == H2;
  }

  lemma CancelledHas(q: Queue, a: Id, key: Key)
    ensures key in Cancelled(q, a) <==> key in q && key.apt != a
    ensures key in Cancelled(q, a) ==> Cancelled(q, a)[key] == q[key]
  {
    assert key.kind == H72 || key.kind == H24 || key.kind == H2;
  }

  // ---------- steps ----------

  datatype Label =
    | Create(apt: Id, startsAt: int, status: Status, call: Id)
    | Confirm(apt: Id, call: Id)
    | DepositPaid(apt: Id, call: Id)
    | DepositFailed(apt: Id)
    | Reschedule(apt: Id, startsAt: int, byClient: bool, call: Id)
    | UpdateTime(apt: Id, startsAt: int, call: Id)
    | SetStatus(apt: Id, status: Status, call: Id)
    | Remove(apt: Id)
    | Finish(call: Id, allowed: set<Kind>)
    | Fire(key: Key, wanted: bool)
    | Tick(now: int)

  predicate Enabled(s: System, l: Label) {
    match l
    case Create(a, _, status, call) =>
      && a !in s.apts && call !in s.chores && (status == PENDING || status == CONFIRMED)
      && (forall key :: key in s.queue ==> key.apt != a) && (forall c :: c in s.chores ==> s.chores[c].apt != a)
    case Confirm(a, call) => a in s.apts && call !in s.chores
    case DepositPaid(a, call) => a in s.apts && call !in s.chores && s.apts[a].status != CONFIRMED
    case DepositFailed(a) => a in s.apts && s.apts[a].status == PENDING
    case Reschedule(a, _, _, call) => a in s.apts && call !in s.chores
    case UpdateTime(a, startsAt, call) => a in s.apts && call !in s.chores && s.apts[a].startsAt != startsAt
    case SetStatus(a, to, call) =>
      a in s.apts && call !in s.chores && Unguarded.CanTransition(s.apts[a].status, to)
    case Remove(a) => a in s.apts
    case Finish(call, _) => call in s.chores
    case Fire(key, _) => key in s.queue && s.queue[key] - Lead(key.kind) <= s.clock
    case Tick(now) => s.clock <= now
  }

  function Write(s: System, a: Id, row: Apt): System {
    s.(apts := s.apts[a := row])
  }

  function Begin(s: System, call: Id, chore: Chore): System {
    s.(chores := s.chores[call := chore])
  }

  /** The queue half: cancel, then schedule if asked and the appointment can be read. */
  function ChoreDone(s: System, chore: Chore, allowed: set<Kind>): Queue {
    var q := if chore.cancel then Cancelled(s.queue, chore.apt) else s.queue;
    if !chore.schedule then q
    else match chore.startsAt
      case Some(startsAt) => Scheduled(q, chore.apt, startsAt, s.clock, allowed)
      case None => if chore.apt in s.apts then Scheduled(q, chore.apt, s.apts[chore.apt].startsAt, s.clock, allowed) else q
  }

  /** The guard each reminder job starts with. */
  predicate GuardPasses(s: System, key: Key)
    requires key in s.queue
  {
    key.apt in s.apts && s.apts[key.apt].status == CONFIRMED && s.apts[key.apt].startsAt == s.queue[key]
  }

  function Next(s: System, l: Label): System
    requires Enabled(s, l)
  {
    match l
    case Create(a, startsAt, status, call) =>
      Begin(Write(s, a, Apt(startsAt, status)), call, Chore(a, false, status == CONFIRMED, Some(startsAt)))
    case Confirm(a, call) =>
      Begin(Write(s, a, s.apts[a].(status := CONFIRMED)), call, Chore(a, false, true, Some(s.apts[a].startsAt)))
    case DepositPaid(a, call) =>
      Begin(Write(s, a, s.apts[a].(status := CONFIRMED)), call, Chore(a, false, true, None))
    case DepositFailed(a) => Write(s, a, s.apts[a].(status := CANCELLED))
    case Reschedule(a, startsAt, byClient, call) =>
      var row := Apt(startsAt, if byClient then PENDING else s.apts[a].status);
      Begin(Write(s, a, row), call, Chore(a, true, row.status == CONFIRMED, Some(startsAt)))
    case UpdateTime(a, startsAt, call) =>
      Begin(Write(s, a, s.apts[a].(startsAt := startsAt)), call, Chore(a, true, false, None))
    case SetStatus(a, to, call) =>
      Begin(Write(s, a, s.apts[a].(status := to)), call, Chore(a, to == CANCELLED, false, None))
    case Remove(a) => s.(apts := s.apts - {a})
    case Finish(call, allowed) => s.(queue := ChoreDone(s, s.chores[call], allowed), chores := s.chores - {call})
    case Fire(key, wanted) =>
      s.(queue := s.queue - {key},
         sent := if GuardPasses(s, key) && wanted
                 then s.sent + [Sent(key, s.queue[key], s.apts[key.apt].startsAt, s.apts[key.apt].status, s.clock)] else s.sent)
    case Tick(now) => s.(clock := now)
  }

  predicate IsRun(s: System, labels: seq<Label>)
    decreases |labels|
  {
    labels == [] || (Enabled(s, labels[0]) && IsRun(Next(s, labels[0]), labels[1..]))
  }

  function Final(s: System, labels: seq<Label>): System
    requires IsRun(s, labels)
    decreases |labels|
  {
    if labels == [] then s else Final(Next(s, labels[0]), labels[1..])
  }

  // ---------- what is sent, in every interleaving ----------

  predicate SentWell(m: Sent) {
    m.status == CONFIRMED && m.expected == m.startsAt && m.at >= m.startsAt - Lead(m.key.kind)
  }

  predicate AlreadySent(sent: seq<Sent>, key: Key, startsAt: int) {
    exists i :: 0 <= i < |sent| && sent[i].key == key && sent[i].startsAt == startsAt
  }

  /** Reminders went to confirmed appointments, no earlier than promised and once per kind
      and start; nothing queued could repeat one. */
  ghost predicate Courteous(s: System) {
    && (forall i :: 0 <= i < |s.sent| ==> SentWell(s.sent[i]) && s.sent[i].at <= s.clock)
    && (forall i, j :: 0 <= i < j < |s.sent| ==> s.sent[i].key != s.sent[j].key || s.sent[i].startsAt != s.sent[j].startsAt)
    && (forall key :: key in s.queue ==> !AlreadySent(s.sent, key, s.queue[key]))
  }

  /** What a chore adds lies ahead, so it was never sent. */
  lemma ChoreAddsUnsent(s: System, chore: Chore, allowed: set<Kind>, key: Key)
    requires Courteous(s) && key in ChoreDone(s, chore, allowed)
    ensures !AlreadySent(s.sent, key, ChoreDone(s, chore, allowed)[key])
  {
    var q := if chore.cancel then Cancelled(s.queue, chore.apt) else s.queue;
    CancelledHas(s.queue, chore.apt, key);
    if chore.schedule && (chore.startsAt.Some? || chore.apt in s.apts) {
      var startsAt := if chore.startsAt.Some? then chore.startsAt.value else s.apts[chore.apt].startsAt;
      ScheduledHas(q, chore.apt, startsAt, s.clock, allowed, key);
      assert key !in q ==> s.clock < startsAt - Lead(key.kind);
    }
  }

  lemma StepStaysCourteous(s: System, l: Label)
    requires Courteous(s) && Enabled(s, l)
    ensures Courteous(Next(s, l))
  {
    if l.Finish? {
      forall key | key in Next(s, l).queue
        ensures !AlreadySent(s.sent, key, Next(s, l).queue[key])
      {
        ChoreAddsUnsent(s, s.chores[l.call], l.allowed, key);
      }
    } else if l.Fire? {
      assert forall key :: key in Next(s, l).queue ==> key != l.key;
    }
  }

  /** In every interleaving of operations, half-finished operations and firing jobs, no
      reminder goes out for an appointment that is not confirmed or has another start, too
      early, or a second time for the same start. */
  lemma {:induction false} NoWrongReminder(s: System, labels: seq<Label>)
    requires Courteous(s) && IsRun(s, labels)
    ensures Courteous(Final(s, labels))
    decreases |labels|
  {
    if labels != [] {
      StepStaysCourteous(s, labels[0]);
      NoWrongReminder(Next(s, labels[0]), labels[1..]);
    }
  }

  // ---------- what is queued, when operations on one appointment take turns ----------

  predicate Agrees(row: Apt, expected: int) {
    row.startsAt == expected && row.status != PENDING && row.status != CANCELLED
  }

  predicate Busy(s: System, a: Id) {
    exists c :: c in s.chores && s.chores[c].apt == a
  }

  /** The operation waits for any unfinished one on the same appointment. */
  predicate TakesTurn(s: System, l: Label) {
    match l
    case Create(_, _, _, _) => true
    case Finish(_, _) => true
    case Fire(_, _) => true
    case Tick(_) => true
    case _ => !Busy(s, l.apt)
  }

  predicate IsOrderlyRun(s: System, labels: seq<Label>)
    decreases |labels|
  {
    labels == [] || (Enabled(s, labels[0]) && TakesTurn(s, labels[0]) && IsOrderlyRun(Next(s, labels[0]), labels[1..]))
  }

  lemma {:induction false} OrderlyIsRun(s: System, labels: seq<Label>)
    requires IsOrderlyRun(s, labels)
    ensures IsRun(s, labels)
    decreases |labels|
  {
    if labels != [] {
      OrderlyIsRun(Next(s, labels[0]), labels[1..]);
    }
  }

  /** A job may disagree with its appointment only while a chore is about to remove it. */
  ghost predicate JobOk(s: System, key: Key)
    requires key in s.queue
  {
    key.apt in s.apts ==>
      || Agrees(s.apts[key.apt], s.queue[key])
      || exists c :: c in s.chores && s.chores[c].apt == key.apt && s.chores[c].cancel
  }

  ghost predicate ChoreOk(s: System, c: Id)
    requires c in s.chores
  {
    var chore := s.chores[c];
    && chore.apt in s.apts
    && (chore.schedule ==> s.apts[chore.apt].status == CONFIRMED)
    && (chore.startsAt.Some? ==> s.apts[chore.apt].startsAt == chore.startsAt.value)
    && (forall d :: d in s.chores && s.chores[d].apt == chore.apt ==> d == c)
  }

  ghost predicate InStep(s: System) {
    && (forall key :: key in s.queue ==> JobOk(s, key))
    && (forall c :: c in s.chores ==> ChoreOk(s, c))
  }

  lemma FinishKeepsJob(s: System, c: Id, allowed: set<Kind>, key: Key)
    requires InStep(s) && c in s.chores && key in ChoreDone(s, s.chores[c], allowed)
    ensures JobOk(Next(s, Finish(c, allowed)), key)
  {
    var chore, s' := s.chores[c], Next(s, Finish(c, allowed));
    assert ChoreOk(s, c);
    var q := if chore.cancel then Cancelled(s.queue, chore.apt) else s.queue;
    CancelledHas(s.queue, chore.apt, key);
    if chore.schedule {
      var startsAt := s.apts[chore.apt].startsAt;
      ScheduledHas(q, chore.apt, startsAt, s.clock, allowed, key);
    }
    if key in q {
      assert JobOk(s, key) && s'.queue[key] == s.queue[key];
      if key.apt in s.apts && !Agrees(s.apts[key.apt], s.queue[key]) {
        var d :| d in s.chores && s.chores[d].apt == key.apt && s.chores[d].cancel;
        assert d == c ==> key !in Cancelled(s.queue, chore.apt);
        assert d in s'.chores;
      }
    }
  }

  lemma WriteKeepsJob(s: System, l: Label, key: Key)
    requires InStep(s) && Enabled(s, l) && TakesTurn(s, l) && !l.Finish? && key in Next(s, l).queue
    ensures JobOk(Next(s, l), key)
  {
    var s' := Next(s, l);
    assert key in s.queue && JobOk(s, key);
    if l.Reschedule? || l.UpdateTime? || (l.SetStatus? && l.status == CANCELLED) {
      assert l.call in s'.chores && s'.chores[l.call].cancel;
    }
    if key.apt in s.apts && !Agrees(s.apts[key.apt], s.queue[key]) {
      var d :| d in s.chores && s.chores[d].apt == key.apt && s.chores[d].cancel;
      assert d in s'.chores && s'.chores[d] == s.chores[d];
    }
  }

  lemma StepKeepsChore(s: System, l: Label, c: Id)
    requires InStep(s) && Enabled(s, l) && TakesTurn(s, l) && c in Next(s, l).chores
    ensures ChoreOk(Next(s, l), c)
  {
    if c in s.chores {
      assert ChoreOk(s, c);
    }
  }

  lemma StepStaysInStep(s: System, l: Label)
    requires InStep(s) && Enabled(s, l) && TakesTurn(s, l)
    ensures InStep(Next(s, l))
  {
    forall key | key in Next(s, l).queue
      ensures JobOk(Next(s, l), key)
    {
      if l.Finish? {
        FinishKeepsJob(s, l.call, l.allowed, key);
      } else {
        WriteKeepsJob(s, l, key);
      }
    }
    forall c | c in Next(s, l).chores
      ensures ChoreOk(Next(s, l), c)
    {
      StepKeepsChore(s, l, c);
    }
  }

  /** After any orderly run, an appointment with nothing unfinished has only reminders for
      its current start queued, and none at all while pending or cancelled. */
  lemma {:induction false} QueueAgrees(s: System, labels: seq<Label>)
    requires InStep(s) && IsOrderlyRun(s, labels)
    ensures IsRun(s, labels)
    ensures InStep(Final(s, labels))
    ensures forall key :: key in Final(s, labels).queue && key.apt in Final(s, labels).apts && !Busy(Final(s, labels), key.apt) ==>
      Agrees(Final(s, labels).apts[key.apt], Final(s, labels).queue[key])
    decreases |labels|
  {
    if labels == [] {
      forall key | key in s.queue && key.apt in s.apts && !Busy(s, key.apt)
        ensures Agrees(s.apts[key.apt], s.queue[key])
      {
        assert JobOk(s, key);
      }
    } else {
      StepStaysInStep(s, labels[0]);
      QueueAgrees(Next(s, labels[0]), labels[1..]);
    }
  }

  /** Finishing an operation leaves a kind queued for the current start exactly when it
      was kept from before or is allowed, still ahead, and the operation schedules.  So a
      confirmed appointment moved through `updateDetails` has no reminders left. */
  lemma ArmedExactly(s: System, c: Id, allowed: set<Kind>, k: Kind)
    requires InStep(s) && c in s.chores
    ensures var chore := s.chores[c];
      var key := Key(k, chore.apt);
      var s' := Next(s, Finish(c, allowed));
      && (key in s'.queue <==>
            || (!chore.cancel && key in s.queue)
            || (chore.schedule && k in allowed && s.clock < s.apts[chore.apt].startsAt - Lead(k)))
      && (key in s'.queue ==> s'.queue[key] == s.apts[chore.apt].startsAt)
  {
    var chore := s.chores[c];
    var key := Key(k, chore.apt);
    assert ChoreOk(s, c);
    var q := if chore.cancel then Cancelled(s.queue, chore.apt) else s.queue;
    CancelledHas(s.queue, chore.apt, key);
    ScheduledHas(q, chore.apt, s.apts[chore.apt].startsAt, s.clock, allowed, key);
    assert key in s.queue ==> JobOk(s, key);
  }

  /** There is still time for a reminder of this kind: three days, one day or two hours. */
  predicate InTime(k: Kind, startsAt: int, clock: int) {
    match k
    case H72 => startsAt - clock > 259_200_000
    case H24 => startsAt - clock > 86_400_000
    case H2 => startsAt - clock > 7_200_000
  }

  /** Its moment has come. */
  predicate IsDue(k: Kind, startsAt: int, clock: int) {
    match k
    case H72 => clock >= startsAt - 259_200_000
    case H24 => clock >= startsAt - 86_400_000
    case H2 => clock >= startsAt - 7_200_000
  }

  /** The queue holds exactly the reminders an appointment with this start calls for. */
  ghost predicate Armed(q: Queue, a: Id, startsAt: int, clock: int, allowed: set<Kind>) {
    forall k :: (Key(k, a) in q <==> k in allowed && InTime(k, startsAt, clock)) && (Key(k, a) in q ==> q[Key(k, a)] == startsAt)
  }

  ghost predicate Disarmed(q: Queue, a: Id) {
    forall k :: Key(k, a) !in q
  }

  /** The reminders it calls for were added to those it had left. */
  ghost predicate ArmedBeside(before: Queue, q: Queue, a: Id, startsAt: int, clock: int, allowed: set<Kind>) {
    forall k ::
      && (k in allowed && InTime(k, startsAt, clock) ==> Key(k, a) in q)
      && (Key(k, a) in q ==> q[Key(k, a)] == startsAt && (Key(k, a) in before || (k in allowed && InTime(k, startsAt, clock))))
  }

  /** What finishing an operation does to the reminders of its appointment. */
  lemma FinishArms(s: System, c: Id, allowed: set<Kind>, before: Queue)
    requires InStep(s) && c in s.chores
    requires forall key :: key in s.queue && key.apt == s.chores[c].apt ==> key in before
    ensures var chore, q := s.chores[c], Next(s, Finish(c, allowed)).queue;
      && chore.apt in s.apts
      && (chore.cancel && chore.schedule ==> Armed(q, chore.apt, s.apts[chore.apt].startsAt, s.clock, allowed))
      && (chore.cancel && !chore.schedule ==> Disarmed(q, chore.apt))
      && (!chore.cancel && chore.schedule ==> ArmedBeside(before, q, chore.apt, s.apts[chore.apt].startsAt, s.clock, allowed))
      && (!chore.cancel && !chore.schedule ==>
            forall k :: Key(k, chore.apt) in q ==> Key(k, chore.apt) in before && q[Key(k, chore.apt)] == s.apts[chore.apt].startsAt)
  {
    assert ChoreOk(s, c);
    var chore, q := s.chores[c], Next(s, Finish(c, allowed)).queue;
    forall k: Kind
      ensures Key(k, chore.apt) in q <==>
        || (!chore.cancel && Key(k, chore.apt) in s.queue)
        || (chore.schedule && k in allowed && InTime(k, s.apts[chore.apt].startsAt, s.clock))
      ensures Key(k, chore.apt) in q ==> q[Key(k, chore.apt)] == s.apts[chore.apt].startsAt
    {
      ArmedExactly(s, c, allowed, k);
    }
  }

  /** A pending or cancelled appointment with nothing unfinished has no reminders. */
  lemma InactiveIsDisarmed(s: System, a: Id)
    requires InStep(s) && a in s.apts && !Busy(s, a) && (s.apts[a].status == PENDING || s.apts[a].status == CANCELLED)
    ensures Disarmed(s.queue, a)
  {
    assert forall key :: key in s.queue ==> JobOk(s, key);
  }

  // ---------- exactly when a job goes stale ----------

  predicate IsStale(s: System, key: Key) {
    key in s.queue && key.apt in s.apts && !Agrees(s.apts[key.apt], s.queue[key])
  }

  /** Any interleaving: the queue half of an operation leaves a disagreeing job exactly if
      it puts one there for a start or status the appointment no longer has, or spares one
      that already disagreed. */
  lemma FinishLeavesStaleExactly(s: System, c: Id, allowed: set<Kind>, k: Kind)
    requires c in s.chores && s.chores[c].apt in s.apts
    ensures var chore := s.chores[c];
      var key, row := Key(k, chore.apt), s.apts[chore.apt];
      var startsAt := if chore.startsAt.Some? then chore.startsAt.value else row.startsAt;
      IsStale(Next(s, Finish(c, allowed)), key) <==>
        if !chore.cancel && key in s.queue then IsStale(s, key)
        else
          && chore.schedule && k in allowed && s.clock < startsAt - Lead(k)
          && (startsAt != row.startsAt || row.status == PENDING || row.status == CANCELLED)
  {
    var chore := s.chores[c];
    var key := Key(k, chore.apt);
    var startsAt := if chore.startsAt.Some? then chore.startsAt.value else s.apts[chore.apt].startsAt;
    CancelledHas(s.queue, chore.apt, key);
    ScheduledHas(if chore.cancel then Cancelled(s.queue, chore.apt) else s.queue, chore.apt, startsAt, s.clock, allowed, key);
  }

  /** The two writes of overlapping reschedules. */
  function BothWritten(s: System, a: Id, first: int, second: int, c: Id, d: Id): System
    requires a in s.apts && c !in s.chores && d !in s.chores && c != d
  {
    Next(Next(s, Reschedule(a, first, false, c)), Reschedule(a, second, false, d))
  }

  /** Two overlapping reschedules of a confirmed appointment.  If their queue halves finish
      in the order of their writes, no job is stale; in the other order, one of kind k is
      exactly if the first start still had time for it. */
  lemma OverlapLeavesStaleExactly(s: System, a: Id, first: int, second: int, c: Id, d: Id, allowedC: set<Kind>, allowedD: set<Kind>, k: Kind)
    requires a in s.apts && c !in s.chores && d !in s.chores && c != d
    requires s.apts[a].status == CONFIRMED && first != second
    ensures var s2 := BothWritten(s, a, first, second, c, d);
      && !IsStale(Next(Next(s2, Finish(c, allowedC)), Finish(d, allowedD)), Key(k, a))
      && (IsStale(Next(Next(s2, Finish(d, allowedD)), Finish(c, allowedC)), Key(k, a)) <==>
            k in allowedC && s.clock < first - Lead(k))
  {
    var s2 := BothWritten(s, a, first, second, c, d);
    FinishLeavesStaleExactly(Next(s2, Finish(c, allowedC)), d, allowedD, k);
    FinishLeavesStaleExactly(Next(s2, Finish(d, allowedD)), c, allowedC, k);
  }

  /** An appointment on day 9 moved to day 5 and, overlapping, to day 6. */
  lemma OverlappingReschedulesLeaveAStaleJob()
    ensures var day := 24 * HOUR_MS;
      var s := System(map[0 := Apt(9 * day, CONFIRMED)], map[], map[], [], 0);
      && InStep(s)
      && var s4 := Next(Next(BothWritten(s, 0, 5 * day, 6 * day, 1, 2), Finish(2, {H24})), Finish(1, {H24}));
         s4.chores == map[] && IsStale(s4, Key(H24, 0))
  {
    var day := 24 * HOUR_MS;
    var s := System(map[0 := Apt(9 * day, CONFIRMED)], map[], map[], [], 0);
    OverlapLeavesStaleExactly(s, 0, 5 * day, 6 * day, 1, 2, {H24}, {H24}, H24);
  }

  /** A confirmed appointment with a reminder, moved by a day through `updateDetails`: it
      stays confirmed and has no reminder left. */
  lemma UpdateDetailsDisarms()
    ensures var day := 24 * HOUR_MS;
      var s := System(map[0 := Apt(5 * day, CONFIRMED)], map[Key(H24, 0) := 5 * day], map[], [], 0);
      && InStep(s) && Enabled(s, UpdateTime(0, 6 * day, 1))
      && var s2 := Next(Next(s, UpdateTime(0, 6 * day, 1)), Finish(1, {H72, H24, H2}));
         s2.apts[0] == Apt(6 * day, CONFIRMED) && s2.queue == map[] && s2.chores == map[]
  {
  }

  // ---------- the services ----------

  /** While an operation is unfinished, no step but its own adds a job for its appointment. */
  lemma OthersAddNothing(s: System, l: Label, call: Id)
    requires InStep(s) && Enabled(s, l) && TakesTurn(s, l) && call in s.chores && !(l.Finish? && l.call == call)
    ensures forall key :: key in Next(s, l).queue && key.apt == s.chores[call].apt ==> key in s.queue
  {
    assert ChoreOk(s, call);
    if l.Finish? {
      assert ChoreOk(s, l.call);
      forall key | key in Next(s, l).queue && key.apt == s.chores[call].apt
        ensures key in s.queue
      {
        FinishTouchesOwn(s, l.call, l.allowed, key);
      }
    }
  }

  lemma FinishTouchesOwn(s: System, c: Id, allowed: set<Kind>, key: Key)
    requires c in s.chores && key.apt != s.chores[c].apt && key in ChoreDone(s, s.chores[c], allowed)
    ensures key in s.queue
  {
  }

  class Reminder {
    var apts: map<Id, Apt>
    var queue: Queue
    var chores: map<Id, Chore>
    var sent: seq<Sent>
    var clock: int

    constructor ()
      ensures State() == System(map[], map[], map[], [], 0)
      ensures InStep(State()) && Courteous(State())
    {
      apts, queue, chores, sent, clock := map[], map[], map[], [], 0;
    }

    function State(): System
      reads this
    {
      System(apts, queue, chores, sent, clock)
    }

    method CancelReminders(a: Id)
      modifies this`queue
      ensures queue == Cancelled(old(queue), a)
    {
      queue := queue - {Key(H72, a)};
      queue := queue - {Key(H24, a)};
      queue := queue - {Key(H2, a)};
    }

    method ScheduleReminders(a: Id, startsAt: int, allowed: set<Kind>)
      modifies this`queue
      ensures queue == Scheduled(old(queue), a, startsAt, clock, allowed)
    {
      var delay72h := startsAt - clock - 72 * HOUR_MS;
      var delay24h := startsAt - clock - 24 * HOUR_MS;
      var delay2h := startsAt - clock - 2 * HOUR_MS;
      if delay72h > 0 && H72 in allowed {
        AddJob(Key(H72, a), startsAt);
      }
      if delay24h > 0 && H24 in allowed {
        AddJob(Key(H24, a), startsAt);
      }
      if delay2h > 0 && H2 in allowed {
        AddJob(Key(H2, a), startsAt);
      }
    }

    method AddJob(key: Key, expected: int)
      modifies this`queue
      ensures queue == Add(old(queue), key, expected, true)
    {
      if key !in queue {
        queue := queue[key := expected];
      }
    }

    method Perform(l: Label)
      requires InStep(State()) && Courteous(State()) && Enabled(State(), l) && TakesTurn(State(), l)
      modifies this
      ensures State() == Next(old(State()), l) && InStep(State()) && Courteous(State())
    {
      StepStaysInStep(State(), l);
      StepStaysCourteous(State(), l);
      var s := Next(State(), l);
      apts, queue, chores, sent, clock := s.apts, s.queue, s.chores, s.sent, s.clock;
    }

    /** `process` for one due job. */
    method Process(key: Key, wanted: bool)
      requires InStep(State()) && Courteous(State()) && key in queue && IsDue(key.kind, queue[key], clock)
      modifies this`queue, this`sent
      ensures State() == Next(old(State()), Fire(key, wanted)) && InStep(State()) && Courteous(State())
      ensures key !in queue
      ensures var expected := old(queue)[key];
        sent == if wanted && key.apt in apts && apts[key.apt] == Apt(expected, CONFIRMED)
                then old(sent) + [Sent(key, expected, expected, CONFIRMED, clock)] else old(sent)
    {
      StepStaysInStep(State(), Fire(key, wanted));
      StepStaysCourteous(State(), Fire(key, wanted));
      var expected := queue[key];
      queue := queue - {key};
      if key.apt in apts && !(apts[key.apt].status != CONFIRMED || apts[key.apt].startsAt != expected) && wanted {
        sent := sent + [Sent(key, expected, apts[key.apt].startsAt, apts[key.apt].status, clock)];
      }
    }

    /** Other operations, and jobs, while call's queue half is still to come. */
    method LetOthersAct(labels: seq<Label>, call: Id)
      requires InStep(State()) && Courteous(State()) && call in chores
      modifies this
      ensures InStep(State()) && Courteous(State())
      ensures call in chores && chores[call] == old(chores)[call]
      ensures chores[call].apt in apts && chores[call].apt in old(apts) && apts[chores[call].apt] == old(apts)[chores[call].apt]
      ensures forall key :: key in queue && key.apt == chores[call].apt ==> key in old(queue)
    {
      assert ChoreOk(State(), call);
      for i := 0 to |labels|
        invariant InStep(State()) && Courteous(State())
        invariant call in chores && chores[call] == old(chores)[call]
        invariant chores[call].apt in apts && chores[call].apt in old(apts) && apts[chores[call].apt] == old(apts)[chores[call].apt]
        invariant forall key :: key in queue && key.apt == chores[call].apt ==> key in old(queue)
      {
        var mine := labels[i].Finish? && labels[i].call == call;
        if !mine && Enabled(State(), labels[i]) && TakesTurn(State(), labels[i]) {
          OthersAddNothing(State(), labels[i], call);
          Perform(labels[i]);
        }
      }
    }

    /** The queue half of an operation. */
    method FinishChore(call: Id, allowed: set<Kind>)
      requires InStep(State()) && Courteous(State()) && call in chores
      modifies this`queue, this`chores
      ensures State() == Next(old(State()), Finish(call, allowed)) && InStep(State()) && Courteous(State())
    {
      StepStaysInStep(State(), Finish(call, allowed));
      StepStaysCourteous(State(), Finish(call, allowed));
      var chore := chores[call];
      if chore.cancel {
        CancelReminders(chore.apt);
      }
      if chore.schedule {
        if chore.startsAt.Some? {
          ScheduleReminders(chore.apt, chore.startsAt.value, allowed);
        } else if chore.apt in apts {
          ScheduleReminders(chore.apt, apts[chore.apt].startsAt, allowed);
        }
      }
      chores := chores - {call};
    }

    /** An operation from its write on: others act, then its queue half runs. */
    method WriteThenArm(l: Label, call: Id, meanwhile: seq<Label>, allowed: set<Kind>)
      requires InStep(State()) && Courteous(State()) && Enabled(State(), l) && TakesTurn(State(), l)
      requires call in Next(State(), l).chores && Next(State(), l).queue == queue
      modifies this
      ensures InStep(State()) && Courteous(State())
      ensures var s := Next(old(State()), l);
        var chore := s.chores[call];
        && chore.apt in s.apts && chore.apt in apts && apts[chore.apt] == s.apts[chore.apt]
        && (chore.cancel && chore.schedule ==> Armed(queue, chore.apt, apts[chore.apt].startsAt, clock, allowed))
        && (chore.cancel && !chore.schedule ==> Disarmed(queue, chore.apt))
        && (!chore.cancel && chore.schedule ==> ArmedBeside(old(queue), queue, chore.apt, apts[chore.apt].startsAt, clock, allowed))
        && (!chore.cancel && !chore.schedule ==>
              forall k :: Key(k, chore.apt) in queue ==> Key(k, chore.apt) in old(queue) && queue[Key(k, chore.apt)] == apts[chore.apt].startsAt)
    {
      Perform(l);
      LetOthersAct(meanwhile, call);
      FinishArms(State(), call, allowed, old(queue));
      FinishChore(call, allowed);
    }

    /** `create`: a confirmed booking ends up with exactly the reminders its start calls
        for, a pending one with none. */
    method CreateAndArm(a: Id, startsAt: int, confirmed: bool, call: Id, meanwhile: seq<Label>, allowed: set<Kind>)
      requires InStep(State()) && Courteous(State())
      requires a !in apts && call !in chores && Disarmed(queue, a) && !Busy(State(), a)
      modifies this
      ensures InStep(State()) && Courteous(State())
      ensures a in apts && apts[a] == Apt(startsAt, if confirmed then CONFIRMED else PENDING)
      ensures if confirmed then Armed(queue, a, startsAt, clock, allowed) else Disarmed(queue, a)
    {
      WriteThenArm(Create(a, startsAt, if confirmed then CONFIRMED else PENDING, call), call, meanwhile, allowed);
    }

    /** `confirm`: the appointment is confirmed and its reminders are queued, beside those
        it already had if it was confirmed before. */
    method ConfirmAndArm(a: Id, call: Id, meanwhile: seq<Label>, allowed: set<Kind>)
      requires InStep(State()) && Courteous(State())
      requires a in apts && call !in chores && !Busy(State(), a)
      modifies this
      ensures InStep(State()) && Courteous(State())
      ensures a in apts && apts[a] == Apt(old(apts)[a].startsAt, CONFIRMED)
      ensures ArmedBeside(old(queue), queue, a, apts[a].startsAt, clock, allowed)
      ensures old(apts)[a].status == PENDING || old(apts)[a].status == CANCELLED ==> Armed(queue, a, apts[a].startsAt, clock, allowed)
    {
      if apts[a].status == PENDING || apts[a].status == CANCELLED {
        InactiveIsDisarmed(State(), a);
      }
      WriteThenArm(Confirm(a, call), call, meanwhile, allowed);
    }

    /** The deposit webhook, which reads the appointment again before it schedules. */
    method DepositPaidAndArm(a: Id, call: Id, meanwhile: seq<Label>, allowed: set<Kind>)
      requires InStep(State()) && Courteous(State())
      requires a in apts && call !in chores && !Busy(State(), a) && apts[a].status != CONFIRMED
      modifies this
      ensures InStep(State()) && Courteous(State())
      ensures a in apts && apts[a] == Apt(old(apts)[a].startsAt, CONFIRMED)
      ensures ArmedBeside(old(queue), queue, a, apts[a].startsAt, clock, allowed)
      ensures old(apts)[a].status == PENDING || old(apts)[a].status == CANCELLED ==> Armed(queue, a, apts[a].startsAt, clock, allowed)
    {
      if apts[a].status == PENDING || apts[a].status == CANCELLED {
        InactiveIsDisarmed(State(), a);
      }
      WriteThenArm(DepositPaid(a, call), call, meanwhile, allowed);
    }

    /** `reschedule` from its committed write on: whatever runs before it reaches the
        queue, the appointment ends up with exactly the reminders its new start and
        status call for. */
    method RescheduleAndRearm(a: Id, startsAt: int, byClient: bool, call: Id, meanwhile: seq<Label>, allowed: set<Kind>)
      requires InStep(State()) && Courteous(State())
      requires a in apts && call !in chores && !Busy(State(), a)
      modifies this
      ensures InStep(State()) && Courteous(State())
      ensures a in apts && apts[a] == Apt(startsAt, if byClient then PENDING else old(apts)[a].status)
      ensures if apts[a].status == CONFIRMED then Armed(queue, a, startsAt, clock, allowed) else Disarmed(queue, a)
    {
      WriteThenArm(Reschedule(a, startsAt, byClient, call), call, meanwhile, allowed);
    }

    /** `updateDetails` with a new start: moved, as confirmed as before, and without
        reminders. */
    method MoveByDetails(a: Id, startsAt: int, call: Id, meanwhile: seq<Label>, allowed: set<Kind>)
      requires InStep(State()) && Courteous(State())
      requires a in apts && call !in chores && !Busy(State(), a) && apts[a].startsAt != startsAt
      modifies this
      ensures InStep(State()) && Courteous(State())
      ensures a in apts && apts[a] == Apt(startsAt, old(apts)[a].status) && Disarmed(queue, a)
    {
      WriteThenArm(UpdateTime(a, startsAt, call), call, meanwhile, allowed);
    }

    /** The deposit webhook on a failure: only what is still pending is cancelled. */
    method DepositFails(a: Id) returns (cancelled: bool)
      requires InStep(State()) && Courteous(State()) && a in apts && !Busy(State(), a)
      modifies this
      ensures InStep(State()) && Courteous(State())
      ensures cancelled <==> old(apts)[a].status == PENDING
      ensures apts == (if cancelled then old(apts)[a := Apt(old(apts)[a].startsAt, CANCELLED)] else old(apts)) && queue == old(queue)
    {
      cancelled := apts[a].status == PENDING;
      if cancelled {
        Perform(DepositFailed(a));
      }
    }

    /** A deleted appointment keeps its jobs, which find nothing to remind of. */
    method Delete(a: Id)
      requires InStep(State()) && Courteous(State()) && a in apts && !Busy(State(), a)
      modifies this
      ensures InStep(State()) && Courteous(State())
      ensures apts == old(apts) - {a} && queue == old(queue)
      ensures forall key :: key in queue && key.apt == a ==> !GuardPasses(State(), key)
    {
      Perform(Remove(a));
    }

    method Wait(now: int)
      requires InStep(State()) && Courteous(State()) && clock <= now
      modifies this
      ensures InStep(State()) && Courteous(State())
      ensures clock == now && apts == old(apts) && queue == old(queue) && sent == old(sent)
    {
      Perform(Tick(now));
    }

    /** `updateStatus`: a cancelled appointment loses its reminders; otherwise none are
        added. */
    method ChangeStatus(a: Id, to: Status, call: Id, meanwhile: seq<Label>, allowed: set<Kind>)
      requires InStep(State()) && Courteous(State())
      requires call !in chores && !Busy(State(), a) && a in apts && Unguarded.IsListed(apts[a].status, to)
      modifies this
      ensures InStep(State()) && Courteous(State())
      ensures a in apts && apts[a] == Apt(old(apts)[a].startsAt, to)
      ensures forall k :: Key(k, a) in queue ==> to != CANCELLED && Key(k, a) in old(queue)
    {
      Unguarded.TransitionsAreListed(apts[a].status, to);
      WriteThenArm(SetStatus(a, to, call), call, meanwhile, allowed);
    }
  }
}
