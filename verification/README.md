# A verified model of the booking platform

The platform takes appointments for small businesses: it offers free slots, books them
under concurrency, and keeps the records that hang on a booking: recurring series,
promo codes, gift cards and packages, refunds, plan subscriptions, reminders, calendar
files, duplicate clients. This project models those parts in Dafny and proves what they
promise, over every input and every run. `dafny verify dfyconfig.toml` checks all of it.

## How it is laid out

The booking calendar:

- `Prelude`, `Clock`, `Calendar`: lists, instants and `HH:mm` strings, the stored rows.
- `Guard`: the check inside the booking transaction, and a declarative definition of a
  free slot that it is proved equal to.
- `GuardMeaning`: a reference decision over the stored fields, equal to the guard's verdict
  on every store.
- `Promo`, `Booking`: the transaction body of `create`, `reschedule` and
  `updateDetails`; when a write keeps all appointments compatible.
- `Protocol`, `Runs`: requests racing on a serializable store: snapshot, decide, then
  commit or abort, at most three times, with status changes and deletions by plain
  updates in between. The invariant holds in every run.
- `BookingMeaning`: what a transaction decides and writes, from the request and the stored
  fields, and which writes make it start over.
- `Safety`, `Contention`: what that means for the business: no double booking, rooms,
  class capacity, promo limits, who can win a contested slot.
- `Unguarded`: the writes that skip the guard, with the exact condition under which each
  one is harmless.
- `DayGrid`, `Slots`, `SlotTheorems`, `OfferedAccepted`, `OfferedExactly`: the slot search
  as the loops it is, exactly what it returns, why the guard accepts what it returns, and
  when it returns what the guard accepts.
- `BookingDesk`, `Recurrence`, `Series`: the service class with its retry loop, and
  recurring series.

The rest, one module per service:

- `Duplicates`: union-find with path halving over shared phones and names.
- `StoredValue`: gift cards and prepaid packages under racing redemptions and voids.
- `Refunds`, `RefundBounds`, `RefundTotals`, `RefundBook`: the refund endpoint and the
  Stripe events around it, write by write: what bounds the refunded total, when it is
  right, and the service class.
- `Subscriptions`, `PlanNotices`, `Grants`, `ReferralRewards`, `BillingDesk`: plan events
  and complimentary grants, statement by statement; what the owner is told, what spares
  and ends a grant, the referral credit, and the service class.
- `Reminders`: the job queue and the guard every reminder starts with.
- `ICal`, `ICalText`, `ICalPeople`: the iCalendar printer, its text line by line, and a
  reader for RFC 5545.

Where the program changes state, the model is a class whose methods are proved equal to
a step of a specification; the theorems are about all sequences of those steps.

## What is assumed

- A provider works for one business.
- Instants are milliseconds; a time zone is a fixed offset. Integers are unbounded.
- Services, hours, time off and closures do not change during a run of bookings.
  Durations are at least one minute, buffers are between 0 and 480 minutes, and opening
  times are real clock times (`00:00` to `23:59`).
- A serializable transaction aborts if a write committed since its snapshot touched a row
  its queries select, the row it updates or the promo row it locked. Among plain updates
  only those of the row it updates are counted: this lets more commits through than the
  database does, so the safety results are the stronger for it.
- Runs contain neither override bookings nor confirmations of inactive appointments; the
  module `Unguarded` says exactly what those can do.
- A status change is decided on the status it overwrites (the program reads first and
  writes later).
- Stripe returns the same refund for the same idempotency key and never issues refunds
  for more than the charge; a `charge.refunded` event lists its refunds and reports a
  positive total. The webhook handlers of refunds are not atomic: each of their writes,
  and the query in `reconcileStripeRefund`, is a step of its own. The transaction that
  ends `refundPayment` is one step.
- Subscription events, complimentary grants and the job that ends them are not atomic
  either: their reads, the write of the subscription and the write of the business are
  steps of their own, and so are the claim of a referral reward and its credit at Stripe.
  The two reads at the start of an event are one step, and a notice is queued in the same
  step as the write that causes it.
- A reminder job loads its appointment, checks it and sends in one step.
- Queue jobs do not fire before they are due.

## Where the code disagrees with its comments or its purpose

- bookings.service.ts:1264-1265 says the guard uses the slot engine's priority of
  opening hours. The guard picks its source per weekday, the engine once for the whole
  week, so on a weekday the engine leaves empty the guard falls back to further hours, at
  last to 09:00-17:00 (`GuardFallsBackExactly`, `SundayIsOnlyOpenToTheGuard`).
- The search counts the widest buffers of all selected services and every use of a needed
  resource by another provider; the guard counts the first service's buffers and lets a
  class share its resource. So the guard accepts slots the search does not offer
  (exactly which: `OfferedExactlyIfAccepted`).
- The guard compares times of day only, without dates or seconds (1274-1278): bookings
  whose buffers cross midnight, or that end within the closing minute, pass although they
  are not inside the hours (`MidnightBufferIsAccepted`, `TrailingSecondsAreAccepted`,
  `StringFitIsContainment`).
- `confirm` has no status check (624-627), so confirming a cancelled appointment can
  double-book (`ConfirmingACancelledAppointmentDoubleBooks`).
- `updateDetails` with an unchanged start writes back the times it read without the guard
  (1032, 1088; `RewritingStaleTimesDoubleBooks`), and after a changed one it cancels the
  reminders and never schedules new ones (1091; `UpdateDetailsDisarms`).
- referrals.service.ts:56-60 promises that the referral reward is granted exactly once. It
  is at most once: the claim is written first and a later failure is swallowed
  (payments.service.ts:842), so a reward can be lost for good (`ARewardCanBeLost`; exactly
  when: `RewardIsPaidExactly`).
- `charge.refunded` writes the total before it mirrors the refunds (503-520). If the
  endpoint records one of them in between, it is counted twice, and the total can pass
  the recorded refunds, what Stripe issued and the payment itself
  (`RaceCountsARefundTwice`; exactly when it passes the known refunds:
  `StepKeepsBoundExactly`, `BoundSurvivesExactly`; exactly when a step takes it past the
  charge or past what Stripe issued: `StepStaysWithinChargeExactly`).
- `reconcileStripeRefund` reads a sum and writes it later (151-156): a slower handler can
  write an old sum (`SlowReconciliationLosesARefund`), and a stale event in between can
  leave a partially refunded payment with nothing refunded (`StaleEventBreaksTheStatus`).
- A refund that fails after it was recorded as succeeded is never subtracted from
  `refundedCents` (`ReconcileMissesExactly`, `LateFailureIsMissed`).
- `applySubscription` compares and decides with the business as it read it (796-814). Of
  two deliveries at the same time both can send the same plan notice
  (`TwoDeliveriesTellTwice`; exactly when: `StepKeepsToldExactly`), and a cancellation
  that read before a grant was made ends it (`AStaleCancellationEndsAGrant`; exactly
  when: `EventSparesGrantExactly`).
- `grantComplimentaryPlan` checks for a subscription and reads the plan to fall back to
  before it writes: a plan bought in between is lost when the grant ends
  (`AGrantOverAFreshSubscription`; exactly when: `LateGrantFallsBackExactly`).
- The job that ends complimentary grants reads them first and writes each later: a paid
  plan that starts in between is overwritten (`LateRevertTakesAPaidPlan`).
- Two overlapping reschedules can leave a reminder queued for a start that is gone
  (`OverlappingReschedulesLeaveAStaleJob`; exactly when: `FinishLeavesStaleExactly`).
- `createRecurring` takes any error of `create` for a refusal (599-602), also one raised
  after its commit: such an occurrence is stored and listed as skipped
  (`SkippedButStoredExactly`, `AStoredOccurrenceIsReportedSkipped`).
- `esc` is for TEXT values, but the invite also uses it inside quoted parameters (65-66 of
  ical.util.ts), where escapes are not interpreted and a double quote ends the name
  (exactly when the name is lost: `NameReadsExactly`; when the address is:
  `AddressReadsExactly`, `TwoNamesThatHideTheAddress`).
- A second complimentary grant made after the first one ended, but before the expiry job
  ran, takes the complimentary plan for the original one (`RegrantRestoresExactly`,
  `LateRegrantKeepsThePlan`).

## Model

| member | source | states |
|---|---|---|
| Clock.ClockOrder | booking-api/src/bookings/bookings.service.ts:1274-1278 | comparing zero-padded `HH:mm` strings orders times exactly as minutes do |
| Guard.StringFitIsContainment | booking-api/src/bookings/bookings.service.ts:1274-1281 | a window that passes the string comparison contains the occupied window if and only if the buffers stay within the local day and no seconds are cut off at closing time |
| Guard.CalendarAcceptsExactly | booking-api/src/bookings/bookings.service.ts:1247-1299 | within one day and to the whole minute, the calendar checks pass if and only if the occupied window lies inside one effective window and meets no time off and no applicable closure |
| Guard.MidnightBufferIsAccepted | booking-api/src/bookings/bookings.service.ts:1274-1278 | a concrete booking whose buffer crosses midnight is accepted outside the hours |
| Guard.TrailingSecondsAreAccepted | booking-api/src/bookings/bookings.service.ts:1274-1278 | a concrete booking ending seconds after closing time is accepted |
| Guard.FarRowsDoNotOverlap | booking-api/src/bookings/bookings.service.ts:1165-1181 | an appointment outside the 480-minute margin cannot meet the occupied window |
| Guard.WindowedQueryIsExact | booking-api/src/bookings/bookings.service.ts:1301-1363 | the windowed queries give the same verdict, error by error, as scanning every appointment |
| Guard.AcceptsExactlyBookable | booking-api/src/bookings/bookings.service.ts:1301-1363 | the overlap, capacity and resource checks accept exactly the declaratively free slots, and each refusal names its own reason |
| GuardMeaning.GuardWindowsAreThese | booking-api/src/bookings/bookings.service.ts:1255-1273 | the guard's windows of a weekday are exactly the provider's rules, else the branch's hours, else the business's, else 09:00 to 17:00 |
| GuardMeaning.GuardIsReference | booking-api/src/bookings/bookings.service.ts:1203-1363 | for every store and booking the verdict equals a reference decision over the stored fields alone: one local day, hours, time off, closures, provider, seats, resources, in this order |
| GuardMeaning.CalendarAcceptsPlainly | booking-api/src/bookings/bookings.service.ts:1247-1299 | with buffers inside the local day and an end on the whole minute, the calendar checks pass if and only if the blocked interval lies in an opening window and meets no time off of the provider and no closure that applies |
| Promo.PreviewAgreesWithBooking | booking-api/src/promo-codes/promo-codes.service.ts:63-76 | preview and booking accept the same codes with the same discount; 0 <= discount <= subtotal; stored total plus discount is the subtotal |
| Promo.PercentIsWithinHalfACent | booking-api/src/bookings/bookings.service.ts:447-450 | a percentage discount is within half a cent of the exact one |
| Promo.DiscountIs | booking-api/src/bookings/bookings.service.ts:447-449 | the discount is exactly the flat value or the percentage rounded to whole cents, halves up, capped at the subtotal |
| Promo.RefusedExactly | booking-api/src/bookings/bookings.service.ts:437-446 | a code is invalid, expired or used up exactly when it belongs elsewhere or is inactive, ends before now, or has no use left, in this order; otherwise it applies |
| Booking.PutKeepsConsistent | booking-api/src/bookings/bookings.service.ts:1301-1363 | writing a row that fits keeps every other active appointment fitting: the check is symmetric enough to be an invariant |
| Booking.UntouchedKeepsBookable | booking-api/src/bookings/bookings.service.ts:1165-1201 | a row outside what the locking queries select cannot take a free slot away |
| Booking.AcceptedEffectFits | booking-api/src/bookings/bookings.service.ts:426-516 | what an accepted create, reschedule or update is about to write fits the store it was decided on |
| BookingMeaning.CreateIsReference | booking-api/src/bookings/bookings.service.ts:426-512 | a new booking is refused for its code's reason, else for the reference decision's; otherwise exactly the requested row is written, with the code's discount, the rest as total, and CONFIRMED or PENDING as asked |
| BookingMeaning.MoveIsReference | booking-api/src/bookings/bookings.service.ts:700-724 | a move is refused if the appointment is missing or the reference decision refuses; otherwise only times and status change, and a client's reschedule goes back to PENDING |
| Protocol.UnclashedStandsNow | booking-api/src/bookings/bookings.service.ts:700-740 | if no write since the snapshot touched what a transaction read, its slot is still free now and its row and promo counter are as it read them |
| BookingMeaning.ClashIs | booking-api/src/bookings/bookings.service.ts:1165-1201 | a transaction has to start over if and only if, since its snapshot, another one wrote a row the guard's windowed queries select, before or after that write, or anybody wrote the appointment it moves or used its code |
| Runs.CommittedRowFits | booking-api/src/bookings/bookings.service.ts:1052-1086 | every commit, decided on a stale snapshot, writes a row that fits the appointments stored at that moment |
| Runs.StepKeepsInvariant | booking-api/src/bookings/bookings.service.ts:520-535 | snapshot, refusal, commit, abort, status change and deletion all keep the system invariant |
| Runs.RunKeepsInvariant | booking-api/src/bookings/bookings.service.ts:426-535 | the invariant holds after every interleaving |
| Safety.NoDoubleBooking | booking-api/src/bookings/bookings.service.ts:1319-1331 | in every reachable state two active appointments of a provider overlap with their buffers only if they share service and start |
| Safety.ResourceIsExclusive | booking-api/src/bookings/bookings.service.ts:1333-1362 | in every reachable state appointments on the same room or equipment overlap only if they share service and start, whoever holds them |
| Safety.CapacityIsRespected | booking-api/src/bookings/bookings.service.ts:1325-1331 | in every reachable state a class instance has at most max(1, capacity) active appointments |
| Safety.CommitsAtMostOnce | booking-api/src/bookings/bookings.service.ts:520-535 | a request commits at most once across its retries |
| Safety.AtMostThreeAttempts | booking-api/src/bookings/bookings.service.ts:520-535 | a request starts at most three transactions |
| Safety.PromoLimitHolds | booking-api/src/bookings/bookings.service.ts:429-454 | in every run the usage counter rises by exactly one per committed booking with the code and never passes its limit |
| Safety.ContendersForOneSlot | booking-api/src/bookings/bookings.service.ts:1325-1331 | of any number of requests, at most as many hold a slot as it has seats |
| Contention.NoMoreWinnersThanSeats | booking-api/src/bookings/bookings.service.ts:516-535 | when all requests want one slot, no more of them commit than it has seats, however they interleave |
| Contention.RefusalNeedsAWinner | booking-api/src/bookings/bookings.service.ts:516-535 | if each request alone would succeed, one that is refused, or gives up after conflicts with writes made since its snapshots, lost to somebody who committed |
| Unguarded.BlindWriteIsSafeExactly | booking-api/src/bookings/bookings.service.ts:456-470 | a write that skips the guard keeps the calendar consistent if and only if the row is inactive or the guard would have accepted it |
| Unguarded.ConfirmIsSafeExactly | booking-api/src/bookings/bookings.service.ts:624-628 | confirming is safe if and only if the appointment was active or its slot would be accepted again |
| Unguarded.ConfirmingACancelledAppointmentDoubleBooks | booking-api/src/bookings/bookings.service.ts:608-628 | a concrete cancelled, rebooked and confirmed appointment overlaps its successor |
| Unguarded.TransitionIsAStep | booking-api/src/bookings/bookings.service.ts:766-791 | an allowed status change starts from an active appointment, is a step of the protocol and cannot be undone |
| Unguarded.TransitionsAreListed | booking-api/src/bookings/bookings.service.ts:768-774 | exactly five status changes are allowed |
| Unguarded.RewriteIsSafeExactly | booking-api/src/bookings/bookings.service.ts:1008-1089 | rewriting times that were read earlier is safe if and only if the appointment is inactive or the guard would accept those times |
| Unguarded.RewritingStaleTimesDoubleBooks | booking-api/src/bookings/bookings.service.ts:1031-1033 | a concrete appointment moved by somebody else and written back onto a slot that was rebooked |
| DayGrid.GenerateDaySlots | booking-api/src/availability/availability.service.ts:254-320 | the stepping loop ends and computes the recursive slot list |
| DayGrid.OffersTheFreeGrid | booking-api/src/availability/availability.service.ts:270-317 | the list holds exactly the unblocked grid points that fit the window |
| DayGrid.OffersAreDisjoint | booking-api/src/availability/availability.service.ts:276-317 | slots are strictly increasing and their occupied windows do not meet |
| DayGrid.SlotCount | booking-api/src/availability/availability.service.ts:271-317 | with nothing booked or blocked there are floor(window / total) slots |
| Slots.CollectSlots | booking-api/src/availability/availability.service.ts:200-232 | the day cursor visits consecutive local days and collects, rule by rule, the slots of each |
| Slots.GetAvailableSlots | booking-api/src/availability/availability.service.ts:104-239 | the search returns the specification's slots, filtered by minimum notice |
| SlotTheorems.SearchIsComplete | booking-api/src/availability/availability.service.ts:202-232 | exactly the in-range slots of all local days are returned, including days never visited |
| SlotTheorems.OncePerRule | booking-api/src/availability/availability.service.ts:202-232 | each in-range slot is returned once for each window of its day that offers it |
| SlotTheorems.SearchIsPairwiseDisjoint | booking-api/src/availability/availability.service.ts:202-239 | with disjoint windows no two returned slots meet, buffers included |
| OfferedAccepted.GuardFallsBackExactly | booking-api/src/bookings/bookings.service.ts:1264-1273 | the guard's windows contain the engine's; they are the same if and only if the engine has any on that weekday |
| OfferedAccepted.SundayIsOnlyOpenToTheGuard | booking-api/src/availability/availability.service.ts:196-198 | without rules and hours the guard accepts a concrete Sunday booking that no search for the branch returns |
| OfferedAccepted.OfferedIsAccepted | booking-api/src/availability/availability.service.ts:234-239 | every slot offered for a branch, with or without additional services, passes the whole in-transaction check |
| OfferedExactly.EngineWindowsAreThese | booking-api/src/availability/availability.service.ts:180-198 | the search's windows are exactly the provider's rules, else the branch's hours, else the business's, else 09:00 to 17:00 from Monday to Friday |
| OfferedExactly.OffersExactly | booking-api/src/availability/availability.service.ts:104-239 | a slot is returned if and only if it is a grid point of an opening window of some local day, inside the requested days and not before the minimum notice, and no appointment, full class, time off, closure or busy resource blocks it |
| OfferedExactly.OfferedExactlyIfAccepted | booking-api/src/availability/availability.service.ts:104-239 | for a branch, a grid point inside the searched days is returned if and only if the check inside the transaction accepts it and nothing blocks only the search: buffers of further services, or a class on the same resource with another provider |
| OfferedExactly.AcceptedIsOffered | booking-api/src/availability/availability.service.ts:234-239 | with one service every grid point the check accepts is returned, unless another provider holds a class of it on the same resource at the same time |
| BookingDesk.Desk.RunRequest | booking-api/src/bookings/bookings.service.ts:516-535 | the retry loop, with rivals acting before each commit, is a run of the protocol; success stores the row of an accepted decision, and the row fits; a refusal was right on a store during the call; giving up took a clashing write by others in each of three transactions; undisturbed, the first decision is the answer |
| BookingDesk.Desk.UpdateStatus | booking-api/src/bookings/bookings.service.ts:766-838 | succeeds exactly for PENDING to CONFIRMED or CANCELLED and CONFIRMED to COMPLETED, NO_SHOW or CANCELLED; changes only the status and keeps the invariant |
| BookingDesk.Desk.Confirm | booking-api/src/bookings/bookings.service.ts:608-628 | writes CONFIRMED whatever the status was, with the exact condition under which the calendar stays consistent |
| BookingDesk.Desk.Delete | booking-api/src/clients/clients.service.ts:242-249 | removes exactly that appointment and keeps the invariant |
| Recurrence.AddMonthsLands | booking-api/src/bookings/bookings.service.ts:588-590 | adding months keeps the time and the day of the month, clamped to the month's last day |
| Recurrence.OccurrenceLands | booking-api/src/bookings/bookings.service.ts:587-590 | the i-th time lies 7, 14, 21 or 56 days times i after the first, or i months on |
| Recurrence.CivilDate | booking-api/src/bookings/bookings.service.ts:588-589 | the months that are counted are those of the Gregorian calendar, leap years included, for every day |
| Recurrence.OccurrencesIncrease | booking-api/src/bookings/bookings.service.ts:586-590 | occurrence times strictly increase from the requested start, for every frequency |
| Recurrence.WeeklyKeepsWeekday | booking-api/src/bookings/bookings.service.ts:587-590 | week-based occurrences keep weekday and time of day |
| Series.SeriesIsSplit | booking-api/src/bookings/bookings.service.ts:583-605 | created and skipped split the occurrence times exactly, both in order, whatever failed |
| Series.CreatedExactlyIfAccepted | booking-api/src/bookings/bookings.service.ts:591-602 | without an override an occurrence is created if and only if the guard accepts it on a store with all earlier ones |
| Series.KeptOccurrenceIs | booking-api/src/bookings/bookings.service.ts:586-602 | an occurrence is stored exactly with an override or if the reference decision accepts it on the store before it, and the row is the one the series asks for |
| Series.SkippedButStoredExactly | booking-api/src/bookings/bookings.service.ts:591-602 | an occurrence is in the skipped list and newly in the store if and only if the guard accepted it on a store with all earlier ones and something after its commit failed |
| Series.AStoredOccurrenceIsReportedSkipped | booking-api/src/bookings/bookings.service.ts:591-602 | a concrete series of two on an open calendar whose second appointment is stored and reported as skipped |
| Series.Shop.CreateRecurring | booking-api/src/bookings/bookings.service.ts:571-606 | a refused first occurrence creates nothing and one that fails after its commit leaves just itself; otherwise the loop records one step per occurrence, reports what returned, and keeps the calendar consistent |
| Duplicates.DisjointSets.Find | booking-api/src/clients/clients.service.ts:265-265 | the path-halving walk ends at the representative of its start and changes no representative |
| Duplicates.DisjointSets.Union | booking-api/src/clients/clients.service.ts:266-266 | exactly the two sets become one |
| Duplicates.RootsAreComponents | booking-api/src/clients/clients.service.ts:269-276 | after the first-seen loop two clients share a root if and only if a chain of shared phones or names links them |
| Duplicates.FindDuplicates | booking-api/src/clients/clients.service.ts:259-287 | groups are disjoint, without repeats and of size two or more; clients sharing a non-empty normalised phone or name are together, and any two together are joined by a chain of such clients |
| StoredValue.LedgerBalances | booking-api/src/gift-cards/gift-cards.service.ts:94-122 | for every history balance plus redemptions is the amount issued, never negative, spent exactly at zero unless void, one credit per package redemption |
| StoredValue.VoidIsFinal | booking-api/src/packages/packages.service.ts:115-115 | a void account never changes again |
| StoredValue.AccountKeepsItsIssue | booking-api/src/gift-cards/gift-cards.service.ts:34-46 | in every history an account keeps the kind, amount and end it was issued with, and is void if and only if it was voided since |
| StoredValue.CommitSeesPresent | booking-api/src/gift-cards/gift-cards.service.ts:127-139 | a redemption that commits computed from the balance that is stored at that moment |
| StoredValue.RunIsSerial | booking-api/src/gift-cards/gift-cards.service.ts:84-141 | every interleaving of issues, redemptions and voids equals executing its commits one after the other |
| StoredValue.MoneyIsConserved | booking-api/src/packages/packages.service.ts:108-150 | conservation in every reachable state of the concurrent system |
| StoredValue.NoRedemptionAfterVoid | booking-api/src/gift-cards/gift-cards.service.ts:143-146 | once void, an account is frozen even against redemptions already in flight |
| StoredValue.ChargedExactlyOnSuccess | booking-api/src/gift-cards/gift-cards.service.ts:130-140 | across retries a request is charged once if it reports success, never otherwise, and only to its own account |
| StoredValue.ChargedExactlyTheAmount | booking-api/src/gift-cards/gift-cards.service.ts:111-140 | over every run the redemptions of a request total what it asked for (one credit of a package) if it reports success, and nothing otherwise |
| StoredValue.DecidesAsItShould | booking-api/src/gift-cards/gift-cards.service.ts:84-124 | checks and write of both services equal one reference: each refusal, and else the account with the price taken, the redemption recorded and spent exactly at zero |
| StoredValue.Till.Redeem | booking-api/src/gift-cards/gift-cards.service.ts:84-141 | success takes exactly the price from the account as it stood at that moment, records it and reports what is left; a refusal was right at some moment of the call; giving up needs three interfering writes to the account; undisturbed, the answer is the one on the accounts as they are |
| StoredValue.Till.IssueAccount | booking-api/src/gift-cards/gift-cards.service.ts:34-46 | adds exactly one active account with its whole amount and nothing redeemed |
| StoredValue.Till.Void | booking-api/src/gift-cards/gift-cards.service.ts:143-146 | voids any existing account and changes nothing else |
| RefundBounds.RefundsStayWithinRecords | booking-api/src/payments/payments.service.ts:1365-1431 | over every order, repetition and staleness of events, with calls and handlers between any two of their writes, the total stays within what Stripe issued and the charge, and within the recorded refunds once no handler is halfway, provided the endpoint never records a refund that a `charge.refunded` handler has counted and not yet mirrored |
| RefundBounds.StepKeepsBoundExactly | booking-api/src/payments/payments.service.ts:503-520 | a step keeps the bound if and only if it does not double a refund in that way, or the doubled amount still fits into what the total had left out |
| RefundBounds.StepStaysWithinChargeExactly | booking-api/src/payments/payments.service.ts:1420-1424 | from within the bound, a step takes the total past the charge, or past what Stripe issued, if and only if it doubles a refund for which there is no room |
| RefundBounds.BoundSurvivesExactly | booking-api/src/payments/payments.service.ts:1404-1429 | from the last write that set the total on, the bound holds if and only if no more is doubled than that write left out and later records added |
| RefundBounds.FreshEventSurvivesExactly | booking-api/src/payments/payments.service.ts:496-522 | around an up-to-date event, with nothing else recorded anew, the bound survives if and only if no call records a refund still to be mirrored |
| RefundBounds.RaceCountsARefundTwice | booking-api/src/payments/payments.service.ts:503-520 | a concrete race that ends with 120 of 100 cents refunded and 60 on record |
| RefundBounds.StatusAlwaysAgrees | booking-api/src/payments/payments.service.ts:151-156 | the status agrees with the total over every run in which no event takes a recorded success back |
| RefundBounds.StepKeepsStatusExactly | booking-api/src/payments/payments.service.ts:151-156 | a step keeps the status in agreement if and only if it is not a reconciliation that read an empty sum |
| RefundBounds.EmptySumExactly | booking-api/src/payments/payments.service.ts:150-154 | a reconciliation reads an empty sum if and only if no refund is recorded as succeeded |
| RefundBounds.StaleEventBreaksTheStatus | booking-api/src/payments/payments.service.ts:137-156 | a concrete stale event between upsert and sum that leaves a partially refunded payment with nothing refunded |
| RefundBounds.ZeroTotalAgreesExactly | booking-api/src/payments/payments.service.ts:504-507 | after `charge.refunded` the status agrees with the total if and only if the total is positive or nothing had been refunded, with a concrete failing payment |
| RefundTotals.ReconcileRestores | booking-api/src/payments/payments.service.ts:129-158 | an undisturbed success event sets the total to the succeeded refunds, is idempotent, and is exact once all are recorded |
| RefundTotals.LateWriteRestoresExactly | booking-api/src/payments/payments.service.ts:150-156 | whatever happens between its query and its update, a reconciliation is right if and only if the succeeded refunds still add up to what it read, in particular if no step changes which refunds succeeded |
| RefundTotals.DisturbedReadMissesExactly | booking-api/src/payments/payments.service.ts:150-156 | one step in between makes it wrong if and only if it changes which refunds succeeded |
| RefundTotals.SlowReconciliationLosesARefund | booking-api/src/payments/payments.service.ts:150-156 | a concrete pair of reconciliations, the slower of which writes 30 of 80 cents |
| RefundTotals.StepKeepsTotalExactly | booking-api/src/payments/payments.service.ts:1404-1429 | exactly which writes keep a right total right; every record of the endpoint does |
| RefundTotals.ReconcileMissesExactly | booking-api/src/payments/payments.service.ts:136-157 | a right total stays right under an undisturbed event if and only if it reports success or the refund was not recorded as succeeded |
| RefundTotals.LateFailureIsMissed | booking-api/src/payments/payments.service.ts:149-157 | a concrete refund that fails after it succeeded and stays in the total |
| Refunds.TwinCallsRefundOnce | booking-api/src/payments/payments.service.ts:1388-1409 | two calls with the same key are one refund, and recording the second changes nothing whatever happens in between |
| Refunds.RunKeepsAccounted | booking-api/src/payments/payments.service.ts:1365-1431 | in every run recorded refunds mirror issued ones, keys name refunds of their amount, and sums that handlers have read stay within the records |
| RefundBook.Book.ReconcileStripeRefund | booking-api/src/payments/payments.service.ts:129-158 | with others acting before its query and before its update, a run in which the handler makes exactly its three steps; undisturbed, the refund is on record with the reported status and a success sets total and status from what succeeded |
| RefundBook.Book.ChargeRefunded | booking-api/src/payments/payments.service.ts:496-522 | with others acting before each upsert, a run in which the handler writes the total and then mirrors every listed refund; undisturbed, total, status and every refund on record are what the event says |
| RefundBook.Book.RefundPayment | booking-api/src/payments/payments.service.ts:1365-1431 | with other steps before and after its Stripe call, a returned refund is of exactly what was asked, or of everything left, on a payment that allowed it when read, and is on record; undisturbed, exactly when it refunds and everything it writes |
| RefundBook.Book.PaymentIntent | booking-api/src/payments/payments.service.ts:422-491 | success settles a pending or failed payment, failure only a pending one, and nothing else changes |
| RefundBook.Book.RefundElsewhere | booking-api/src/payments/payments.service.ts:496-499 | a refund made outside the endpoint is issued and nothing is recorded yet |
| Subscriptions.ReplayIsSilentExactly | booking-api/src/payments/payments.service.ts:779-838 | replaying an undisturbed event changes no row and sends nothing if and only if it still resolves to the same plan and no grant it spared has ended; at a fixed time never |
| Subscriptions.UndisturbedIsApplied | booking-api/src/payments/payments.service.ts:779-844 | the three steps of an event with nothing in between have the effect of one |
| Subscriptions.EventIsReference | booking-api/src/payments/payments.service.ts:742-844 | for every price, metadata plan, status and time, which plan an undisturbed event stores on the subscription and the business, what it spares, which notices it sends and whether a reward is due |
| PlanNotices.NoticesTrackThePlan | booking-api/src/payments/payments.service.ts:827-829 | over every sequence of events, with handlers between any two statements, the owner was last told the plan in force and never told the same twice, provided no write misreports |
| PlanNotices.StepKeepsToldExactly | booking-api/src/payments/payments.service.ts:796-829 | a step keeps that promise if and only if it is not the write of an event that read another plan than the one it overwrites, exactly one of the two being the event's own |
| PlanNotices.CurrentReadReports | booking-api/src/payments/payments.service.ts:796-829 | an event that overwrites the plan it read never misreports |
| PlanNotices.TwoDeliveriesTellTwice | booking-api/src/payments/payments.service.ts:796-829 | two concrete deliveries of one event send the same notice twice |
| Grants.GrantSurvives | booking-api/src/payments/payments.service.ts:807-826 | events that resolve to FREE and have read the grant never end it while it is in force, with handlers between any two statements |
| Grants.EventSparesGrantExactly | booking-api/src/payments/payments.service.ts:807-826 | the write of an event leaves a grant in force alone if and only if the event resolved to FREE and had read an active grant |
| Grants.AStaleCancellationEndsAGrant | booking-api/src/payments/payments.service.ts:796-826 | a concrete cancellation that read before the grant ends it |
| Grants.GrantRoundTrip | booking-api/src/verification/verification.service.ts:346-358 | a grant, whatever spares it, and its expiry bring back the plan it replaced |
| Grants.LateRevertExpires | booking-api/src/notifications/notifications.processor.ts:996-1012 | the late write of the expiry job is the expiry it read if nothing touched the business in between |
| Grants.EventBeforeLateRevertStaysExactly | booking-api/src/notifications/notifications.processor.ts:1001-1010 | an event between read and write keeps its plan if and only if it resolves to the plan the job had read |
| Grants.LateRevertTakesAPaidPlan | booking-api/src/notifications/notifications.processor.ts:996-1012 | a concrete business that subscribes to PRO in between and ends on FREE |
| Grants.RegrantRestoresExactly | booking-api/src/verification/verification.service.ts:348-350 | two grants give the original plan back if and only if the second was made while the first was in force, or the first granted nothing new |
| Grants.LateRegrantKeepsThePlan | booking-api/src/verification/verification.service.ts:348-350 | a concrete FREE business that ends on PRO |
| Grants.LateGrantFallsBackExactly | booking-api/src/verification/verification.service.ts:332-358 | a grant falls back to the plan it replaces if and only if that is still the plan it had read |
| Grants.AGrantOverAFreshSubscription | booking-api/src/verification/verification.service.ts:332-358 | a concrete plan bought while a grant is being made, lost when the grant ends |
| ReferralRewards.OneCreditPerReferral | booking-api/src/payments/payments.service.ts:1057-1075 | over every sequence with replays and crashes each referred business earns at most one credit, of the configured amount and never for itself |
| ReferralRewards.RewardIsPaidExactly | booking-api/src/referrals/referrals.service.ts:56-72 | over every run a claimed reward is paid or on its way if and only if no failure hit it between claim and credit |
| ReferralRewards.DroppedRewardIsLost | booking-api/src/payments/payments.service.ts:841-843 | a reward dropped in between is never paid later |
| ReferralRewards.ARewardCanBeLost | booking-api/src/payments/payments.service.ts:1060-1074 | a concrete run from a new store: referral, paid event, claim, failure |
| ReferralRewards.FirstReferrerWins | booking-api/src/referrals/referrals.service.ts:41-54 | a recorded referral keeps its referrer |
| BillingDesk.Billing.ApplySubscription | booking-api/src/payments/payments.service.ts:780-844 | with others acting before each of its writes, a run in which it makes exactly its three steps, in the order of the program; undisturbed, it stores the plan the subscription is for, for active and trialing ones and until 72 hours after the paid period for past-due ones, else FREE |
| BillingDesk.Billing.GrantPlan | booking-api/src/verification/verification.service.ts:326-358 | refused exactly while Stripe bills the business; otherwise a run in which it reads, others act, and it writes the plan, its end and the plan to go back to; undisturbed, nothing else changes |
| BillingDesk.Billing.ClaimPendingReward | booking-api/src/referrals/referrals.service.ts:61-72 | only the caller whose update flips an unrewarded referral gets the referrer, and only that referral changes |
| BillingDesk.Billing.CreditReferrer | booking-api/src/payments/payments.service.ts:1068-1074 | credits the recorded referrer with exactly the configured reward |
| BillingDesk.Billing.RecordNewReferral | booking-api/src/referrals/referrals.service.ts:41-54 | records a referral, and reports it, exactly for a known code of another business and a business not referred before |
| BillingDesk.Billing.ExpireGrants | booking-api/src/notifications/notifications.processor.ts:996-1012 | with nothing in between, writing the lapsed grants in any order expires exactly those |
| Reminders.NoWrongReminder | booking-api/src/notifications/notifications.processor.ts:1678-1744 | in every interleaving a reminder goes out only to a confirmed appointment whose start is the one its job expected, not early, and once per kind and start |
| Reminders.QueueAgrees | booking-api/src/bookings/bookings.service.ts:742-747 | when operations on one appointment take turns, a finished appointment has reminders queued only for its current start, and none while pending or cancelled |
| Reminders.ArmedExactly | booking-api/src/notifications/notifications.service.ts:223-254 | exactly which reminders are queued after an operation; none after a time change through `updateDetails` |
| Reminders.FinishLeavesStaleExactly | booking-api/src/notifications/notifications.service.ts:223-289 | in any interleaving the queue half of an operation leaves a disagreeing job if and only if it adds one for a start or status the appointment no longer has, or spares one that disagreed |
| Reminders.OverlapLeavesStaleExactly | booking-api/src/bookings/bookings.service.ts:742-747 | two overlapping reschedules finished in the order of their writes leave no stale job; in the other order they leave one if and only if the first start still had time for it |
| Reminders.OverlappingReschedulesLeaveAStaleJob | booking-api/src/bookings/bookings.service.ts:742-747 | a concrete pair of overlapping reschedules with a stale job |
| Reminders.UpdateDetailsDisarms | booking-api/src/bookings/bookings.service.ts:1091-1095 | a concrete confirmed appointment moved through `updateDetails` and left without reminders |
| Reminders.Reminder.ScheduleReminders | booking-api/src/notifications/notifications.service.ts:223-254 | the three conditional additions compute the specification's queue |
| Reminders.Reminder.Process | booking-api/src/notifications/notifications.processor.ts:1678-1744 | a due job sends exactly if its appointment is confirmed with the start it expected, and leaves the queue either way |
| Reminders.Reminder.RescheduleAndRearm | booking-api/src/bookings/bookings.service.ts:742-747 | whatever runs in between, a reschedule ends with exactly the reminders, 72, 24 and 2 hours ahead, that its new start and status call for |
| Reminders.Reminder.CreateAndArm | booking-api/src/bookings/bookings.service.ts:549-560 | whatever runs in between, a confirmed booking ends with exactly the reminders its start calls for, a pending one with none |
| Reminders.Reminder.ConfirmAndArm | booking-api/src/bookings/bookings.service.ts:624-640 | confirming adds exactly the reminders the start calls for, beside those still queued |
| Reminders.Reminder.DepositPaidAndArm | booking-api/src/payments/payments.service.ts:441-457 | so does a deposit |
| Reminders.Reminder.DepositFails | booking-api/src/payments/payments.service.ts:486-492 | a failed deposit cancels only what is still pending |
| Reminders.Reminder.MoveByDetails | booking-api/src/bookings/bookings.service.ts:1088-1091 | a time changed through `updateDetails` moves the appointment and leaves it without reminders |
| Reminders.Reminder.ChangeStatus | booking-api/src/bookings/bookings.service.ts:785-847 | a cancelled appointment ends without reminders, and no status change adds one |
| ICal.FourPassesAreOne | booking-api/src/calendar-sync/ical.util.ts:7-13 | the four sequential replacements are one character map |
| ICal.EscRoundTrip | booking-api/src/calendar-sync/ical.util.ts:7-13 | unescaping by RFC 5545 section 3.3.11 gives every text back |
| ICal.EscNoLF | booking-api/src/calendar-sync/ical.util.ts:7-13 | escaped text contains no line feed |
| ICal.FeedRoundTrip | booking-api/src/calendar-sync/ical.util.ts:93-129 | unfolding, splitting and reading the feed gives the calendar name and every appointment's id, times, summary, provider and status, in order |
| ICal.Describe | booking-api/src/calendar-sync/ical.util.ts:42-47 | the joined description is the escaped form of the plain lines |
| ICal.GenerateICalEvent | booking-api/src/calendar-sync/ical.util.ts:41-69 | reading the invite gives one event with id, times, summary, description and location as they were typed, and besides exactly the organizer and attendee lines |
| ICalText.FeedIsTheseLines | booking-api/src/calendar-sync/ical.util.ts:93-129 | for every list of appointments the feed is exactly these lines, in this order |
| ICalText.InviteIsTheseLines | booking-api/src/calendar-sync/ical.util.ts:29-69 | for every appointment the invite is exactly these lines, with the place its mode calls for and the people who have an address |
| ICalPeople.NameReadsExactly | booking-api/src/calendar-sync/ical.util.ts:65-66 | by RFC 5545 section 3.2 a quoted name is read as typed if and only if it has no backslash, comma, semicolon, line feed or double quote |
| ICalPeople.AddressReadsExactly | booking-api/src/calendar-sync/ical.util.ts:65-66 | the address is read if and only if the double quotes in the name pair up with no colon outside the quotes |
| ICalPeople.AddressReads | booking-api/src/calendar-sync/ical.util.ts:65-66 | whatever else a name contains, without a double quote it cannot hide the address |
| ICalPeople.OneQuoteHidesTheAddress | booking-api/src/calendar-sync/ical.util.ts:65-66 | every name with one double quote hides the address |
| ICalPeople.AColonOutsideHidesTheAddress | booking-api/src/calendar-sync/ical.util.ts:65-66 | so does every colon after a first double quote, with whatever quotes follow |
| ICalPeople.PairedQuotesRead | booking-api/src/calendar-sync/ical.util.ts:65-66 | a pair of quotes around anything without a colon does no harm to the address |
| ICalPeople.TwoNamesThatHideTheAddress | booking-api/src/calendar-sync/ical.util.ts:65-66 | two concrete names that hide the address |

## Left out

- Real time zones and daylight saving: a zone is a fixed offset.
- Plan, branch, staff and ownership checks before the transactions of `create`, `reschedule` and `redeem`: single lookups that only refuse more.
- The public endpoint's extra check against the primary service's grid: acceptance is stated for the check inside the transaction.
- Google busy times: they only remove slots.
- Changes of services, hours, time off or closures during a run, merging clients, deleting a branch or reassigning a provider's appointments.
- Payment rows, fees, audit log, events, e-mail and push texts, Google Calendar sync.
- Gift card codes and their collision retry, package templates: an account is named by its id; the amount limits above one are not needed.
- The post-appointment follow-up job, which has no expected start.
- `generateICalCancellation`: a constant variation of the invite.
- Safety.NoDoubleBooking: does not cover bookings made with `overrideConflicts` or confirmations of inactive appointments, which the program lets bypass the guard; see `Unguarded`.
- OfferedAccepted.OfferedIsAccepted: asks for a branch and for the occupied window to lie inside the searched range; without a branch the guard counts every branch's closures and the search does not, and the search fetches blocks of its own range only.
- Duplicates.FindDuplicates: the phone and name normalisers are arbitrary functions, and the booking counts shown beside each client are not modelled.
- RefundBounds.RefundsStayWithinRecords: Stripe's bound is on all refunds it ever issued, so a failed refund is not freed for another one.
- Reminders.QueueAgrees: for operations on one appointment that do not overlap; `FinishLeavesStaleExactly` says what others leave behind.
- PlanNotices.NoticesTrackThePlan: grants and their expiry are not in its runs, because they change the plan without this notice.
- ICal.FeedRoundTrip: instants are given as formatted text and ids must be free of line feeds; the number of octets per line is not limited, as in the program.
