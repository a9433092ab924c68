/** Writes that skip the guard: `confirm`, the deposit webhook, a status change decided
    on a stale read, and a details update that rewrites the times it read.  Exactly when
    such a write keeps the calendar free of double bookings. */
module Unguarded {
  import opened Prelude
  import opened Clock
  import opened Calendar
  import opened Guard
  import opened Booking
  import opened Protocol

  /** A blind write keeps the calendar consistent exactly when it leaves the appointment
      inactive or the guard, had it been asked, would have accepted the row. */
  lemma BlindWriteIsSafeExactly(w: World, rows: Rows, id: Id, r: Row)
    requires ValidWorld(w) && Consistent(w, rows) && r.startsAt < r.endsAt
    ensures Consistent(w, rows[id := r]) <==>
      !r.status.Active() || RowsVerdict(w, rows, ArgsOf(w, id, r)) == Accepted
  {
    AcceptsExactlyBookable(w, rows, ArgsOf(w, id, r));
    ItselfDoesNotCount(w, rows, id, r);
    if !r.status.Active() || Bookable(w, rows, ArgsOf(w, id, r)) {
      PutKeepsConsistent(w, rows, id, r);
    } else {
      assert rows[id := r][id] == r;
    }
  }

  /** `confirm` and the deposit webhook set CONFIRMED whatever the status was. */
  function Confirmed(rows: Rows, id: Id): Rows
    requires id in rows
  {
    rows[id := rows[id].(status := CONFIRMED)]
  }

  /** Confirming is safe exactly for appointments that are still active, or whose slot
      the guard would accept again. */
  lemma ConfirmIsSafeExactly(w: World, rows: Rows, id: Id)
    requires ValidWorld(w) && Consistent(w, rows) && id in rows
    ensures Consistent(w, Confirmed(rows, id)) <==>
      rows[id].status.Active() || RowsVerdict(w, rows, ArgsOf(w, id, rows[id])) == Accepted
  {
    var r := rows[id].(status := CONFIRMED);
    assert ArgsOf(w, id, r) == ArgsOf(w, id, rows[id]);
    BlindWriteIsSafeExactly(w, rows, id, r);
    if rows[id].status.Active() {
      AcceptsExactlyBookable(w, rows, ArgsOf(w, id, r));
    }
  }

  /** VALID_TRANSITIONS of `updateStatus`. */
  predicate CanTransition(from: Status, to: Status) {
    match from
    case PENDING => to == CONFIRMED || to == CANCELLED
    case CONFIRMED => to == COMPLETED || to == NO_SHOW || to == CANCELLED
    case _ => false
  }

  /** The five transitions there are. */
  predicate IsListed(from: Status, to: Status) {
    (from, to) in {(PENDING, CONFIRMED), (PENDING, CANCELLED), (CONFIRMED, COMPLETED), (CONFIRMED, NO_SHOW), (CONFIRMED, CANCELLED)}
  }

  lemma TransitionsAreListed(from: Status, to: Status)
    ensures CanTransition(from, to) <==> IsListed(from, to)
  {
  }

  /** Decided on the status it overwrites, every allowed transition is a step of the
      protocol, so all of its promises survive; decided on a stale read it need not be. */
  lemma TransitionIsAStep(c: Config, s: System, id: Id, to: Status)
    requires id in s.db.rows && CanTransition(s.db.rows[id].status, to)
    ensures Enabled(c, s, SetStatus(id, to)) && s.db.rows[id].status.Active()
    ensures !CanTransition(to, s.db.rows[id].status)
  {
  }

  /** A cancelled appointment whose slot was rebooked, then confirmed. */
  lemma ConfirmingACancelledAppointmentDoubleBooks()
    ensures var w := OpenOnThursday(0);
      var gone := Row(0, 0, 0, None, 0, 30 * MINUTE_MS, CANCELLED, 0, 0, None);
      var rows := map[0 := gone, 1 := gone.(status := CONFIRMED)];
      ValidWorld(w) && Consistent(w, rows) && !Consistent(w, Confirmed(rows, 0))
  {
    var w := OpenOnThursday(0);
    var gone := Row(0, 0, 0, None, 0, 30 * MINUTE_MS, CANCELLED, 0, 0, None);
    var rows := map[0 := gone, 1 := gone.(status := CONFIRMED)];
    assert Mates(rows, ArgsOf(w, 1, rows[1])) == {};
    var rows' := Confirmed(rows, 0);
    assert 0 in Mates(rows', ArgsOf(w, 1, rows'[1]));
    assert !Bookable(w, rows', ArgsOf(w, 1, rows'[1]));
  }

  /** `updateDetails` with an unchanged start rewrites the times it read, without the
      guard; if the appointment was moved in between, the write moves it back. */
  function DetailsRewritten(rows: Rows, id: Id, readStart: int, readEnd: int): Rows
    requires id in rows
  {
    rows[id := rows[id].(startsAt := readStart, endsAt := readEnd)]
  }

  /** Rewriting the times is safe exactly when the appointment is inactive, or the guard
      would accept the times read; unmoved appointments always qualify. */
  lemma RewriteIsSafeExactly(w: World, rows: Rows, id: Id, readStart: int, readEnd: int)
    requires ValidWorld(w) && Consistent(w, rows) && id in rows && readStart < readEnd
    ensures Consistent(w, DetailsRewritten(rows, id, readStart, readEnd)) <==>
      || !rows[id].status.Active()
      || RowsVerdict(w, rows, MoveArgs(w, id, rows[id], readStart, 0).(endsAt := readEnd)) == Accepted
    ensures rows[id].startsAt == readStart && rows[id].endsAt == readEnd ==>
      DetailsRewritten(rows, id, readStart, readEnd) == rows
  {
    var r := rows[id].(startsAt := readStart, endsAt := readEnd);
    assert ArgsOf(w, id, r) == MoveArgs(w, id, rows[id], readStart, 0).(endsAt := readEnd);
    BlindWriteIsSafeExactly(w, rows, id, r);
  }

  /** Read at midnight, moved to 01:00 by somebody else, midnight booked again: writing the
      times that were read puts two appointments on midnight. */
  lemma RewritingStaleTimesDoubleBooks()
    ensures var w := OpenOnThursday(0);
      var halfHour := 30 * MINUTE_MS;
      var moved := Row(0, 0, 0, None, 2 * halfHour, 3 * halfHour, CONFIRMED, 0, 0, None);
      var rows := map[0 := moved, 1 := moved.(startsAt := 0, endsAt := halfHour)];
      ValidWorld(w) && Consistent(w, rows) && !Consistent(w, DetailsRewritten(rows, 0, 0, halfHour))
  {
    var w := OpenOnThursday(0);
    var halfHour := 30 * MINUTE_MS;
    var moved := Row(0, 0, 0, None, 2 * halfHour, 3 * halfHour, CONFIRMED, 0, 0, None);
    var rows := map[0 := moved, 1 := moved.(startsAt := 0, endsAt := halfHour)];
    assert Mates(rows, ArgsOf(w, 0, rows[0])) == {} && Mates(rows, ArgsOf(w, 1, rows[1])) == {};
    var rows' := DetailsRewritten(rows, 0, 0, halfHour);
    assert 0 in Mates(rows', ArgsOf(w, 1, rows'[1]));
    assert !Bookable(w, rows', ArgsOf(w, 1, rows'[1]));
  }
}
