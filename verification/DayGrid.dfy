/** `generateDaySlots`: the slots of one opening window of one day. */
module DayGrid {
  import opened Clock
  import opened Calendar

  datatype Slot = Slot(startsAt: int, endsAt: int)

  /** The selected services taken together: summed duration, widest buffers. */
  datatype Bundle = Bundle(service: Id, durationMinutes: int, bufferBeforeMin: int, bufferAfterMin: int, seats: int)

  /** What a candidate slot is tested against: the provider's appointments and the
      intervals (time off, closures, busy resources) that block everyone. */
  datatype View = View(world: World, rows: Rows, blocks: set<Interval>, bundle: Bundle)

  ghost predicate ValidBundle(b: Bundle) {
    b.durationMinutes >= 1 && b.bufferBeforeMin >= 0 && b.bufferAfterMin >= 0
  }

  function TotalMs(b: Bundle): (ms: int)
    ensures ValidBundle(b) ==> ms >= 60_000
  {
    (b.bufferBeforeMin + b.durationMinutes + b.bufferAfterMin) * 60_000
  }

  function SlotAt(b: Bundle, start: int): Slot {
    Slot(start, AddMinutes(start, b.durationMinutes))
  }

  function Taken(b: Bundle, start: int): Interval {
    Interval(AddMinutes(start, -b.bufferBeforeMin), AddMinutes(AddMinutes(start, b.durationMinutes), b.bufferAfterMin))
  }

  function OverlappingRows(v: View, start: int): set<Id> {
    set id | id in v.rows && Overlap(Taken(v.bundle, start), OccupiedRow(v.world, v.rows[id]))
  }

  function ClassmateRows(v: View, start: int): set<Id> {
    set id | id in OverlappingRows(v, start) && id in v.rows
      && v.rows[id].service == v.bundle.service && v.rows[id].startsAt == start
  }

  predicate BlockedByAppointment(v: View, start: int) {
    || |OverlappingRows(v, start)| > |ClassmateRows(v, start)|
    || |ClassmateRows(v, start)| >= v.bundle.seats
  }

  predicate BlockedByTimeOff(v: View, start: int) {
    exists b :: b in v.blocks && Overlap(Taken(v.bundle, start), b)
  }

  predicate Free(v: View, start: int) {
    !BlockedByAppointment(v, start) && !BlockedByTimeOff(v, start)
  }

  /** The slots from a candidate start on. */
  function SlotsFrom(v: View, start: int, windowEnd: int): seq<Slot>
    requires ValidBundle(v.bundle)
    decreases windowEnd - start
  {
    if Taken(v.bundle, start).end > windowEnd then []
    else
      (if Free(v, start) then [SlotAt(v.bundle, start)] else []) + SlotsFrom(v, start + TotalMs(v.bundle), windowEnd)
  }

  function WindowSlots(v: View, windowStart: int, windowEnd: int): seq<Slot>
    requires ValidBundle(v.bundle)
  {
    SlotsFrom(v, AddMinutes(windowStart, v.bundle.bufferBeforeMin), windowEnd)
  }

  method GenerateDaySlots(v: View, windowStart: int, windowEnd: int) returns (slots: seq<Slot>)
    requires ValidBundle(v.bundle)
    ensures slots == WindowSlots(v, windowStart, windowEnd)
  {
    slots := [];
    var candidateStart := AddMinutes(windowStart, v.bundle.bufferBeforeMin);
    while true
      invariant slots + SlotsFrom(v, candidateStart, windowEnd) == WindowSlots(v, windowStart, windowEnd)
      decreases windowEnd - candidateStart
    {
      var occupiedEnd := Taken(v.bundle, candidateStart).end;
      if occupiedEnd > windowEnd {
        break;
      }
      if !BlockedByAppointment(v, candidateStart) && !BlockedByTimeOff(v, candidateStart) {
        slots := slots + [SlotAt(v.bundle, candidateStart)];
      }
      candidateStart := candidateStart + TotalMs(v.bundle);
    }
  }

  // ---------- what the day's slots are ----------

  /** s is the k-th point of the grid from `start`, fits the window and is unblocked. */
  ghost predicate IsFreeGridPoint(v: View, start: int, windowEnd: int, k: nat, s: Slot) {
    && s == SlotAt(v.bundle, start + k * TotalMs(v.bundle))
    && Taken(v.bundle, s.startsAt).end <= windowEnd
    && Free(v, s.startsAt)
  }

  lemma {:induction false} OfferIsGridPoint(v: View, start: int, windowEnd: int, s: Slot) returns (k: nat)
    requires ValidBundle(v.bundle) && s in SlotsFrom(v, start, windowEnd)
    ensures IsFreeGridPoint(v, start, windowEnd, k, s)
    decreases windowEnd - start
  {
    if Free(v, start) && s == SlotAt(v.bundle, start) {
      k := 0;
    } else {
      var j := OfferIsGridPoint(v, start + TotalMs(v.bundle), windowEnd, s);
      k := j + 1;
      Shift(TotalMs(v.bundle), start, k);
    }
  }

  lemma Shift(total: int, start: int, k: nat)
    requires k > 0
    ensures start + k * total == start + total + (k - 1) * total
    ensures total >= 0 ==> k * total >= total
  {
  }

  lemma {:induction false} GridPointIsOffered(v: View, start: int, windowEnd: int, k: nat, s: Slot)
    requires ValidBundle(v.bundle) && IsFreeGridPoint(v, start, windowEnd, k, s)
    ensures s in SlotsFrom(v, start, windowEnd)
    decreases k
  {
    if k > 0 {
      Shift(TotalMs(v.bundle), start, k);
      GridPointIsOffered(v, start + TotalMs(v.bundle), windowEnd, k - 1, s);
    }
  }

  /** Exactly the unblocked grid points that fit the window: none missed, none invented. */
  lemma OffersTheFreeGrid(v: View, windowStart: int, windowEnd: int, s: Slot)
    requires ValidBundle(v.bundle)
    ensures s in WindowSlots(v, windowStart, windowEnd) <==>
      exists k: nat :: IsFreeGridPoint(v, AddMinutes(windowStart, v.bundle.bufferBeforeMin), windowEnd, k, s)
  {
    var start := AddMinutes(windowStart, v.bundle.bufferBeforeMin);
    if s in WindowSlots(v, windowStart, windowEnd) {
      var k := OfferIsGridPoint(v, start, windowEnd, s);
    }
    if k: nat :| IsFreeGridPoint(v, start, windowEnd, k, s) {
      GridPointIsOffered(v, start, windowEnd, k, s);
    }
  }

  lemma SlotsFromBounds(v: View, start: int, windowEnd: int, s: Slot)
    requires ValidBundle(v.bundle) && s in SlotsFrom(v, start, windowEnd)
    ensures s == SlotAt(v.bundle, s.startsAt) && Free(v, s.startsAt)
    ensures start <= s.startsAt && Taken(v.bundle, s.startsAt).end <= windowEnd
  {
    var k := OfferIsGridPoint(v, start, windowEnd, s);
  }

  /** In order, and disjoint with their buffers. */
  lemma {:induction false} OffersAreDisjoint(v: View, start: int, windowEnd: int, i: nat, j: nat)
    requires ValidBundle(v.bundle) && i < j < |SlotsFrom(v, start, windowEnd)|
    ensures var slots := SlotsFrom(v, start, windowEnd);
      && slots[i].startsAt < slots[j].startsAt
      && Taken(v.bundle, slots[i].startsAt).end <= Taken(v.bundle, slots[j].startsAt).start
    decreases windowEnd - start
  {
    var rest := SlotsFrom(v, start + TotalMs(v.bundle), windowEnd);
    if Free(v, start) {
      if i == 0 {
        SlotsFromBounds(v, start + TotalMs(v.bundle), windowEnd, rest[j - 1]);
      } else {
        OffersAreDisjoint(v, start + TotalMs(v.bundle), windowEnd, i - 1, j - 1);
      }
    } else {
      OffersAreDisjoint(v, start + TotalMs(v.bundle), windowEnd, i, j);
    }
  }

  /** On an empty calendar the window holds as many slots as the total fits into it. */
  lemma {:induction false} EmptyCalendarFillsTheWindow(v: View, start: int, windowEnd: int, n: nat)
    requires ValidBundle(v.bundle) && v.rows == map[] && v.blocks == {} && v.bundle.seats >= 1
    requires n * TotalMs(v.bundle) <= windowEnd - Taken(v.bundle, start).start < (n + 1) * TotalMs(v.bundle)
    ensures |SlotsFrom(v, start, windowEnd)| == n
    decreases n
  {
    if n > 0 {
      assert OverlappingRows(v, start) == {} && ClassmateRows(v, start) == {};
      assert n * TotalMs(v.bundle) == TotalMs(v.bundle) + (n - 1) * TotalMs(v.bundle);
      EmptyCalendarFillsTheWindow(v, start + TotalMs(v.bundle), windowEnd, n - 1);
    }
  }

  lemma SlotCount(v: View, windowStart: int, windowEnd: int)
    requires ValidBundle(v.bundle) && v.rows == map[] && v.blocks == {} && v.bundle.seats >= 1
    requires windowStart <= windowEnd
    ensures |WindowSlots(v, windowStart, windowEnd)| == (windowEnd - windowStart) / TotalMs(v.bundle)
  {
    var n := (windowEnd - windowStart) / TotalMs(v.bundle);
    EmptyCalendarFillsTheWindow(v, AddMinutes(windowStart, v.bundle.bufferBeforeMin), windowEnd, n);
  }
}
