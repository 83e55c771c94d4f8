# Chronos scheduler: a verified model

Chronos lets clients book a provider's time slots, move, confirm, decline and cancel those
bookings, and be reminded by email. This project models the part of it where things can go wrong
together: the booking protocol over shared tables, the delivery of reminders through a delayed
queue and several workers, and the generation and storing of slots across time-zone changes.

**Booking protocol.** `Tables` holds the state (slots, bookings, reminder rows, idempotency keys;
instants are integers, in milliseconds). `Requests` gives every request as one atomic step.
`Transactions` gives the same requests as programs of SQL statements with private writes, row locks
and rollback; `Programs` shows that a program run alone is the atomic step; `Interleaving` runs any
number of them statement by statement, with lost connections, and proves that what is committed is a
serial run in commit order. `SlotExclusivity`, `Idempotency`, `Conservation`, `RescheduleChains`,
`TimeBounds` and `DeadlockFreedom` are about every run. `Outcomes` says of every request, over the fields of the
request and the rows of the tables alone, when it gives which answer and what it changes. `BookingService` is the imperative form: the
endpoints update the tables of `Storage` in place, roll back, and do their queue work after the commit.
`UnlockedEndpoints` holds runs in which an endpoint that does not lock what it read breaks exclusivity or
ends in a wait cycle. Every statement of a transaction is taken to run on one connection; create and cancel pass
the connection pool itself to BEGIN and COMMIT (apps/api/src/bookings/bookings.controller.ts:50,187-190), so for
them that is an assumption under every theorem about transactions.

**Reminders.** `ReminderQueue` is the queue manager, `ReminderWorker` the worker and the email
provider, `ReminderRows` the life of one row, `ReminderTimes` the fire times. `Delivery` puts
requests, queue, workers, crashes and provider into one system; `DeliveryReads` and `DuplicateEmail`
say which emails it can send. `EmailKeys` proves that the texts naming a reminder are unambiguous.

**Slots.** `Zone` is a time zone as a list of offset changes with the "compatible" reading of a
wall-clock time (section 3.3.5 of RFC 5545). `SlotGeneration` is `generateSlots`, `SlotBound` the exact
jump up to which its slots stay disjoint, `Materialize` and `WeeklyMaterializer` store them.

`EscapeHtml` is the small text routine of the email templates.

## What the model found

- **At-most-once email has no slack.** Reminders are emailed at most once exactly when the retry window plus the
  time between the window test and the provider's answer stays below the provider's retention
  (`DuplicateEmail.NeverTwiceExactly`). The window is one millisecond below 24 hours, so any measurable latency
  admits a run with two emails 24 hours apart (`ChronosNeverTwice`); up to a day of latency there are never three.
- **Whatever fails after COMMIT answers 400 for a booking that stands.** The reads and the enqueue after the commit
  run inside the same `try`, so their errors are answered like a failed booking. `BookingService.CreateBooking` states
  exactly when an error answer leaves a change behind, `CommittedYetRefused` is such a create, and
  `RetryAfterFailedWork` says what a retry gets.
- **A concurrent duplicate is refused, not replayed.** A create that passed its idempotency pre-check before its twin
  committed can only fail, with 'slot_unavailable' (`Idempotency.ConcurrentDuplicateRefused`). Every create that
  succeeds can be raced like that (`DuplicateRace`, `DuplicateRaceExists`).
- **Clean-up after a move finds nothing.** The transaction has already cancelled the rows
  `cancelForBooking` looks for, so the old jobs stay queued (`ReminderQueue.MoveLeavesJobs`); after
  `cancelBooking` the id passed is one its query never fetched. That no email follows rests on the
  worker's own checks, which suffice (`DeliveryReads.EndedBookingGetsNoEmail`).
- **Three statuses the tables refuse.** The API's PATCH list contains 'confirmed' and 'declined', and the worker writes
  'suppressed'; the tables' CHECK constraints list none of them, so those statements fail
  (`SlotExclusivity.PatchSucceedsExactly` says when PATCH succeeds). An opted-out
  client's row therefore stays 'sending' (`ReminderWorker.OptOutLeavesSending`).
- **The unlocked endpoints can leave a live booking on an open slot.** PATCH back to 'booked' after a cancel does
  (`UnlockedEndpoints.RevivedOnOpenSlot`), and so do the writes of a cancel that paused while its booking was moved and
  the freed slot booked again (`StaleCancelOpensTakenSlot`). `SlotExclusivity` gives the exact conditions.
- **Transactions can deadlock once that has happened.** With PATCH and the writes of cancel included, no wait cycle
  forms while every committed live booking sits on a slot marked booked (`DeadlockFreedom.NoWaitCycleWhileExclusive`),
  which create, reschedule, confirm and decline by themselves guarantee (`NoWaitCycle`). After a revival on an open
  slot a create and a cancel can wait for each other (`UnlockedEndpoints.RevivalDeadlocks`).
- **Where slots can overlap.** Generated slots are disjoint for all zones with forward jumps up to `j`
  exactly when `j` is at most the slot length (`SlotBound.SlotLengthIsTheBound`). Half-hour slots in office hours stay
  disjoint in zones with one-hour jumps as long as no jump falls into office hours (`OfficeHoursDisjoint`).
- **A window ending at 24:00 loses its last slot.** Hour 24 is constrained to 23 when the last grid point is read, so a
  slot of an hour or less that would end at midnight vanishes and a longer one ends at 23:00 (`MidnightCutsLast`).
- **One stored slot in the way stops a provider's whole batch.** The weekly materializer stores all of a run or nothing:
  a generated slot that overlaps a stored row, without sharing its start, fails every weekday with it. Rolling the
  window day by day then differs from one run over the range, for instance after a rule has moved by half an hour
  (`WeeklyMaterializer.MovedRuleDiffers`); `RollingWeekExactly` says for which tables the two agree.
- **Two schemas.** The migration gives a new booking version 1 and lets a slot be booked again once its booking is
  cancelled, by a partial unique index; the Prisma schema has version 0 and a plain unique `slotId`, under which a
  freed slot could never be booked again. The model follows the migration.

## Model

| member | source | states |
|---|---|---|
| `Interleaving.Serialisable` | apps/api/src/bookings/bookings.service.ts:78-122 | after any interleaving of statements, lost connections included, the committed tables are those of the committed requests run one at a time in commit order, and each gave the reply it gives there |
| `Interleaving.StepInv` | apps/api/src/bookings/reschedule.service.ts:61-113 | every step keeps locks disjoint and every running transaction where it would stand had it run alone on what is committed now |
| `Interleaving.CommitUndisturbed` | apps/api/src/bookings/reschedule.service.ts:61-113 | a commit disturbs no transaction that holds other rows |
| `Transactions.StmtLocal` | apps/api/src/bookings/bookings.service.ts:82-122 | what a statement locks and writes depends only on the rows it locks |
| `Transactions.CommitLocal` | apps/api/src/bookings/bookings.service.ts:122 | committing leaves every row the transaction did not hold as it was |
| `Transactions.SoloFrame` | apps/api/src/bookings/reschedule.service.ts:61-113 | a transaction's progress is the same on any tables that agree on the rows it holds |
| `Transactions.SoloCovered` | apps/api/src/bookings/reschedule.service.ts:61-113 | a transaction writes only rows it holds, never moves a booking to another slot, and holds the index entry whenever it changes what is live |
| `Programs.SoloIsAtomic` | apps/api/src/bookings/bookings.controller.ts:196-242 | a transaction that reaches COMMIT alone publishes exactly the tables and reply of the atomic request |
| `Programs.SeenProceeds` | apps/api/src/bookings/bookings.service.ts:79-122 | a transaction whose atomic request would be carried out can always execute its next statement |
| `Programs.FailsAsAtomic` | apps/api/src/bookings/reschedule.service.ts:63-75 | a transaction whose next statement fails is answered as the atomic request would be at that moment, but for a create whose key was stored since its pre-check |
| `Interleaving.LocksBlock` | apps/api/src/bookings/reschedule.service.ts:36-62 | no statement runs that needs a row another transaction holds, no reschedule begins while its booking row is held, and a lost connection leaves the tables alone |
| `Interleaving.RunsToCommit` | apps/api/src/bookings/bookings.service.ts:79-122 | such a transaction, let run while nobody else holds a row, reaches COMMIT with exactly that request's tables and reply |
| `Programs.SoloSeen` | apps/api/src/bookings/bookings.service.ts:79-122 | at every statement a transaction sees the committed tables plus exactly the atomic request's effect so far |
| `Outcomes.CreateAnswers` | apps/api/src/bookings/bookings.service.ts:60-91 | a create is answered from the key row of its own client and key if there is one; otherwise it succeeds if and only if the slot is open, vacant and at least the notice ahead and its ids are unused, and is refused with nothing changed |
| `Outcomes.OtherClientsKeysDoNotMatter` | apps/api/src/bookings/bookings.service.ts:64-67 | key rows of other clients have no part in a create's answer |
| `Outcomes.CreateChanges` | apps/api/src/bookings/bookings.service.ts:82-120 | a successful create books its slot, inserts its booking, stores its key row if it has a key, and leaves every other slot, booking and key as it was |
| `Outcomes.CreateRows` | apps/api/src/bookings/bookings.service.ts:101-112 | its reminder rows are the old ones, unchanged, and one for each offset still to come |
| `Outcomes.MoveAnswers` | apps/api/src/bookings/reschedule.service.ts:40-75 | a reschedule succeeds if and only if the booking exists at the version named, is booked, its slot is outside the request's window or 24 hours, and the new slot is open, ahead and vacant; otherwise the first failing test names the answer and nothing changes |
| `Outcomes.MoveChanges` | apps/api/src/bookings/reschedule.service.ts:68-111 | slot won booked, slot left opened, old booking cancelled, new one of the same client and zone one version on, key stored; everything else as it was |
| `Outcomes.MoveRows` | apps/api/src/bookings/reschedule.service.ts:90-104 | the old booking's reminder rows are cancelled, others unchanged, and one inserted for each offset still to come |
| `Outcomes.DecideAnswers` | apps/api/src/bookings/bookings.controller.ts:203-233 | confirm and decline succeed exactly on the caller's own booked booking, which becomes completed or cancelled one version on, and nothing else changes |
| `Outcomes.PatchAnswers` | apps/api/src/bookings/bookings.controller.ts:117-128 | PATCH tests existence, owner, listed status and the table's constraints in this order, and sets status and version of the booking alone |
| `Outcomes.CancelAnswers` | apps/api/src/bookings/bookings.controller.ts:165-192 | cancel succeeds exactly on the caller's own booked booking of the version named outside the window, cancels it and opens its slot; otherwise the first failing test names the answer and nothing changes |
| `Outcomes.CancelWritesChanges` | apps/api/src/bookings/bookings.controller.ts:187-190 | the bare writes of cancel test nothing |
| `Outcomes.TransitionAnswers` | apps/api/src/lifecycle/lifecycle.service.ts:12-75 | a transition succeeds exactly from booked to another status at the version expected, if one is, and opens the slot when cancelling |
| `Outcomes.LifecycleCancelAnswers` | apps/api/src/lifecycle/lifecycle.service.ts:77-132 | the windowed cancel succeeds exactly on a booked booking outside the window |
| `Outcomes.AdmittedExactly` | apps/api/src/bookings/bookings.controller.ts:165-187 | which requests get past the reads before their transaction: a create unless its client's key is stored, a reschedule unless a test of its first transaction or the window fails, a cancel exactly when it would be carried out |
| `Outcomes.NoticeInForce` | apps/api/src/bookings/bookings.service.ts:38-44 | the notice is the provider's stored value unless it is absent or zero, then four hours |
| `SlotExclusivity.NoDoubleBooking` | apps/api/src/bookings/bookings.service.ts:82-98 | with every guarded request as an atomic step, every reachable state has at most one live booking per slot and every live booking's slot marked booked |
| `SlotExclusivity.IndexNeverFires` | packages/db/migrations/002_phase2_full_schema.sql:54 | after a won compare-and-set the unique index on live bookings never rejects the insert |
| `SlotExclusivity.NoDoubleBookingInterleaved` | apps/api/src/bookings/reschedule.service.ts:66-86 | the same exclusivity in every reachable state of interleaved create, reschedule, confirm and decline |
| `SlotExclusivity.OneLiveInterleaved` | apps/api/src/bookings/bookings.controller.ts:110-131 | with PATCH status and the unlocked cancel interleaving too, the index and rollback still keep one live booking per slot |
| `SlotExclusivity.AnyCallOneLive` | apps/api/src/bookings/bookings.controller.ts:110-131 | every request, guarded or not, keeps one live booking per slot |
| `SlotExclusivity.PatchSucceedsExactly` | apps/api/src/bookings/bookings.controller.ts:117-124 | PATCH status succeeds if and only if the caller owns the booking, the status is completed, cancelled or booked, and it revives no booking on a slot with another live one; confirmed and declined are refused with nothing changed |
| `SlotExclusivity.PatchExclusiveExactly` | apps/api/src/bookings/bookings.controller.ts:119-124 | PATCH status keeps exclusivity exactly when it is not the caller's own cancelled booking being set to completed or booked on a slot nobody has and that is not marked booked |
| `SlotExclusivity.CancelWritesExclusiveExactly` | apps/api/src/bookings/bookings.controller.ts:187-190 | the two unguarded writes of cancel keep exclusivity exactly when no other live booking sits on the slot they open |
| `UnlockedEndpoints.RevivedOnOpenSlot` | apps/api/src/bookings/bookings.controller.ts:110-131 | from one open slot: create, cancel and PATCH to booked end with a live booking on an open slot |
| `UnlockedEndpoints.StaleCancelOpensTakenSlot` | apps/api/src/bookings/bookings.controller.ts:165-190 | an interleaved run in which a cancel's late writes open the slot another client has meanwhile booked |
| `UnlockedEndpoints.RevivalDeadlocks` | apps/api/src/bookings/bookings.controller.ts:187-190 | a run from one open slot, with a revival, that ends with a create and a cancel waiting for each other |
| `DeadlockFreedom.NoWaitCycleWhileExclusive` | apps/api/src/bookings/bookings.controller.ts:116-124 | in no reachable state whose committed live bookings sit on slots marked booked do transactions wait in a cycle, PATCH status and the writes of cancel included |
| `DeadlockFreedom.NoWaitCycle` | apps/api/src/bookings/reschedule.service.ts:62-81 | of create, reschedule, confirm and decline that condition always holds: they never wait in a cycle |
| `DeadlockFreedom.ReschedulePastCasNeverWaits` | apps/api/src/bookings/reschedule.service.ts:68-104 | a reschedule past its compare-and-set waits for nobody before its key insert, in particular not for the slot it gives back |
| `DeadlockFreedom.SomebodyCanMove` | apps/api/src/bookings/bookings.service.ts:79-122 | in such a state, while any transaction runs, one of them can execute its next statement |
| `DeadlockFreedom.ClaimsExclusive` | apps/api/src/bookings/reschedule.service.ts:68-81 | no two transactions claim one slot, as the slot won or the slot being left |
| `Idempotency.OneBookingPerKeyInterleaved` | apps/api/src/bookings/bookings.service.ts:114-120 | over every interleaving at most one booking is created under a (client, key) |
| `Idempotency.OneBookingPerKey` | packages/db/migrations/002_phase2_full_schema.sql:72-80 | no two requests of a history both create a booking under the same (client, key) |
| `Idempotency.ReplayReturnsSameBooking` | apps/api/src/bookings/bookings.service.ts:63-75 | repeating a committed create under its key, whatever came between, returns the same booking id and changes nothing |
| `Idempotency.KeyReuseRefused` | apps/api/src/bookings/bookings.service.ts:70-72 | a different request under a used key is refused and changes nothing |
| `Idempotency.PrecheckAfterCommit` | apps/api/src/bookings/bookings.service.ts:63-75 | once a keyed create has committed, every later pre-check under its key in any interleaved state answers that request with its booking and refuses every other |
| `Idempotency.NoTraceOfLosers` | apps/api/src/bookings/bookings.service.ts:155-161 | in every interleaved state the bookings are exactly those there at first and those a committed request was answered with, and every new key row names one of the latter |
| `Idempotency.ConcurrentDuplicateRefused` | apps/api/src/bookings/bookings.service.ts:63-120 | a create past its pre-check whose key another transaction has since committed never commits, fails at its key insert at the latest and is answered slot_unavailable, where run then it would be replayed |
| `Idempotency.DuplicateRace` | apps/api/src/bookings/bookings.service.ts:63-122 | for every create that succeeds there is a run in which it commits while its twin stands past its pre-check |
| `Idempotency.DuplicateRaceExists` | apps/api/src/bookings/bookings.service.ts:63-122 | such a run from one open slot, in which the twin cannot commit although run then it would be replayed |
| `Conservation.BookedSlotsConserved` | apps/api/src/bookings/bookings.controller.ts:232 | booked slots minus live bookings grows by exactly the decline steps taken, over every guarded run |
| `Conservation.RescheduleCounts` | apps/api/src/bookings/reschedule.service.ts:68-86 | a reschedule keeps the number of open slots, booked slots and live bookings |
| `Conservation.BlockedStaysBlocked` | apps/api/src/lifecycle/lifecycle.service.ts:52-71 | over every guarded run the blocked slots are the same set |
| `Conservation.ConservedInterleaved` | apps/api/src/bookings/bookings.controller.ts:226-233 | both over every interleaving of create, reschedule, confirm and decline, counting the declines that committed |
| `RescheduleChains.ChainsHold` | apps/api/src/bookings/reschedule.service.ts:65-86 | over every run, bookings of one chain share the client and the (non-empty) zone, at most one is live, and a booked one's version is the chain's first plus the moves behind it |
| `RescheduleChains.ChainsHoldInterleaved` | apps/api/src/bookings/reschedule.service.ts:61-113 | the same over every interleaving of create, reschedule, confirm and decline |
| `RescheduleChains.FinalFrozenOver` | apps/api/src/bookings/bookings.controller.ts:207-231 | a booking no longer booked never changes again under any guarded requests: create, reschedule, confirm, decline, cancel and the lifecycle service |
| `RescheduleChains.ResendCreatesNothing` | apps/api/src/bookings/reschedule.service.ts:41-43 | resending a successful reschedule after any requests whatever, PATCH and bare cancel writes included, is refused and creates nothing |
| `RescheduleChains.OneMovePerVersionInterleaved` | apps/api/src/bookings/reschedule.service.ts:61-113 | over every interleaving at most one committed reschedule moves a given version of a booking |
| `RescheduleChains.SpentStaysOver` | apps/api/src/bookings/bookings.controller.ts:123 | over every history, once a version of a booking has been moved or has ended it can never be moved again |
| `BookingRules.WindowTestsAgree` | apps/api/src/lifecycle/lifecycle.service.ts:99-109 | the four separately written window tests agree for all clocks, starts and windows |
| `BookingRules.CancellationAllowedExactly` | apps/api/src/bookings/lifecycle.service.ts:36-59 | a cancellation passes exactly for a booked booking of the expected version inside the window |
| `BookingRules.TransitionTables` | apps/api/src/bookings/lifecycle.service.ts:9-19 | the module's transition table leaves only booked, for completed and cancelled, and differs from the lifecycle service's in no_show alone |
| `TimeBounds.FreedOnlyInsideWindow` | apps/api/src/bookings/reschedule.service.ts:48-56 | a slot goes from booked to open only by four requests, and those that test a window do so by start minus the window named in the request, 24 hours for a reschedule that names none |
| `TimeBounds.CreateReminderRows` | apps/api/src/bookings/bookings.service.ts:100-112 | a create inserts the 60- and 1440-minute rows exactly when more than an hour and a day ahead, and no others |
| `TimeBounds.NoticeSecuresReminder` | apps/api/src/providers/providers.controller.ts:35-38 | with every notice the settings accept, or none, the 60-minute reminder always exists, with 48 the 24-hour one too |
| `TimeBounds.RescheduleReminderRows` | apps/api/src/bookings/reschedule.service.ts:90-104 | a reschedule cancels every old row and inserts exactly the new ones still to come |
| `TimeBounds.SerialFireTimes` | apps/api/src/bookings/bookings.service.ts:101-111 | over every run each reminder row fires its offset before the start of its booking's slot |
| `TimeBounds.FireTimesInterleaved` | apps/api/src/bookings/reschedule.service.ts:94-104 | and over every interleaving of all the transactions |
| `ReminderTimes.MoveUsesSubtractElapsed` | packages/time/src/time-core.ts:63-67 | every row a reschedule inserts fires at the new slot's start less its offset, as computed with a magnitude, and later than the request's clock |
| `ReminderTimes.ReminderFireTimes` | packages/time/src/time-core.ts:81-92 | the loop returns exactly the fire times still to come, ascending |
| `ReminderTimes.CreateUsesFireTimes` | apps/api/src/bookings/bookings.service.ts:101-112 | the rows a create inserts fire at exactly the times that function lists |
| `BookingService.BookingService.InsertReminders` | apps/api/src/bookings/bookings.service.ts:101-112 | the insert loop succeeds exactly without a unique violation and then holds both rows that are due |
| `BookingService.BookingService.CreateTransaction` | apps/api/src/bookings/bookings.service.ts:78-122 | compare-and-set, inserts and rollback give the tables and reply of the atomic create |
| `BookingService.BookingService.CreateBooking` | apps/api/src/bookings/bookings.service.ts:27-163 | tables, queue and reply are those of the atomic create followed by its reads and enqueue; an error answer leaves a change behind exactly when the create commits and something after it throws |
| `BookingService.RetryAfterFailedWork` | apps/api/src/bookings/bookings.service.ts:122-161 | after a failure behind the commit a keyed retry is answered with the booking already made, an unkeyed one finds the slot taken |
| `BookingService.WorkFailsExactly` | apps/api/src/reminders/reminder.queue.ts:37-99 | the work after a commit throws exactly when a read does, or the loop reaches a scheduled row whose statement throws or whose add the queue refuses |
| `BookingService.WorkEnqueuesAll` | apps/api/src/bookings/bookings.service.ts:127-151 | when nothing throws, every scheduled reminder of the booking still to come has its job |
| `BookingService.CommittedYetRefused` | apps/api/src/bookings/bookings.service.ts:122-161 | a concrete create that commits and whose enqueue fails |
| `BookingService.BookingService.RescheduleTransaction` | apps/api/src/bookings/reschedule.service.ts:59-113 | the move step by step, or undone, is the atomic reschedule |
| `BookingService.BookingService.RescheduleBooking` | apps/api/src/bookings/reschedule.service.ts:24-134 | reply of the atomic reschedule, no job leaves the queue, the new booking's reminders are enqueued |
| `BookingService.BookingService.Decision` | apps/api/src/bookings/bookings.controller.ts:203-210 | the locked read, the checks and the update are the atomic decision |
| `BookingService.BookingService.ConfirmBooking` | apps/api/src/bookings/bookings.controller.ts:196-217 | only the caller's own booked booking becomes completed |
| `BookingService.BookingService.DeclineBooking` | apps/api/src/bookings/bookings.controller.ts:220-242 | the atomic decline, and exactly that booking's active rows and removable jobs are withdrawn |
| `BookingService.BookingService.UpdateStatus` | apps/api/src/bookings/bookings.controller.ts:110-131 | the atomic PATCH, with rows and jobs withdrawn only for 'cancelled' |
| `BookingService.BookingService.CancelBooking` | apps/api/src/bookings/bookings.controller.ts:157-193 | the atomic cancel; reminder rows and jobs stay |
| `BookingService.BookingService.Transit` | apps/api/src/lifecycle/lifecycle.service.ts:12-75 | the transition, undone as a whole when the slot is missing |
| `BookingService.BookingService.CancelWithin` | apps/api/src/lifecycle/lifecycle.service.ts:77-132 | the windowed cancel frees the slot and bumps the version, or changes nothing |
| `ReminderQueue.ReminderQueueManager.EnqueueForBooking` | apps/api/src/reminders/reminder.queue.ts:25-113 | the loop skips past rows, adds a job for each scheduled one, keeps a job already held and ends at the first statement or add that throws |
| `ReminderQueue.ReminderQueueManager.ReconcileScheduledReminders` | apps/api/src/reminders/reminder.queue.ts:115-153 | afterwards every scheduled row of a booked booking is in the future and exactly one job carries its id, but for rows whose turn threw |
| `ReminderQueue.EnqueueOutcome` | apps/api/src/reminders/reminder.queue.ts:37-99 | one turn, by row, clock and faults: left alone, skipped, or queued to be ready the fire time's distance after it is added, unless its job is held |
| `ReminderQueue.ReconcileOutcome` | apps/api/src/reminders/reminder.queue.ts:118-147 | for each row: skipped if its booking is booked and its fire time past, given a job of the right delay if still to come, and otherwise left alone |
| `ReminderQueue.ReconcileAgrees` | apps/api/src/reminders/reminder.queue.ts:115-153 | from any tables and queue: past rows skipped, others untouched, every job kept, each added job of the right row and delay |
| `ReminderQueue.ReconcileTreats` | apps/api/src/reminders/reminder.queue.ts:118-148 | the loop's effect is a function of the set of rows, not of their order |
| `ReminderQueue.SecondRunChangesNothing` | apps/api/src/reminders/reminder.queue.ts:115-153 | a second run at the same clock changes nothing |
| `Delivery.ReconcilesFromAnyRun` | apps/api/src/reminders/reminder.queue.ts:115-153 | in every state that requests, lost jobs, clean-ups and crashed workers reach, one reconciliation makes queue and tables agree |
| `Delivery.RunWellKeyed` | apps/api/src/reminders/reminder.queue.ts:60 | over every run each job sits under the id made from the row it carries |
| `ReminderQueue.ReminderQueueManager.CancelForBooking` | apps/api/src/reminders/reminder.queue.ts:155-192 | exactly the booking's active rows are cancelled and their removable jobs removed |
| `ReminderQueue.WithdrawnExactly` | apps/api/src/reminders/reminder.queue.ts:155-192 | no active row of the booking remains, a job of one remains only if stuck, other bookings keep rows and jobs |
| `ReminderQueue.WithdrawOutcome` | apps/api/src/reminders/reminder.queue.ts:158-189 | exactly the booking's scheduled and sending rows become cancelled |
| `ReminderQueue.MoveLeavesJobs` | apps/api/src/bookings/reschedule.service.ts:90-114 | after a committed reschedule the clean-up of the old booking changes neither rows nor jobs |
| `ReminderQueue.ReminderQueueManager.CancelReminderJob` | apps/api/src/reminders/reminder.queue.ts:194-221 | the named job goes unless stuck, the row ends inactive, nothing else changes |
| `ReminderRows.NeverBack` | apps/api/src/reminders/reminder.worker.ts:269-308 | a row never re-enters 'scheduled', and once out of scheduled and sending never returns |
| `ReminderRows.AttemptsCountClaims` | apps/api/src/reminders/reminder.worker.ts:83-87 | attempts equals the number of successful claims |
| `ReminderRows.ClaimsApart` | apps/api/src/reminders/reminder.worker.ts:48-69 | two claims of one row are more than the two-minute lease apart |
| `ReminderRows.ClaimedOnce` | apps/api/src/reminders/reminder.worker.ts:83-87 | without `claimDue` a claimed row is never claimed again |
| `ReminderWorker.ReminderWorker.ClaimDueRow` | apps/api/src/reminders/reminder.worker.ts:48-74 | leases an earliest due row nobody else holds, or finds that none is due |
| `ReminderWorker.ReminderWorker.ProcessReminder` | apps/api/src/reminders/reminder.worker.ts:109-171 | for a sending row, rows and provider end as the specification of an attempt says; any other row is left alone |
| `ReminderWorker.ReminderWorker.ProcessJob` | apps/api/src/reminders/reminder.worker.ts:79-101 | the claim and the processing do what the statement-by-statement attempt does when left alone, with the outcomes listed case by case |
| `ReminderWorker.ReminderWorker.MarkStatus` | apps/api/src/reminders/reminder.worker.ts:269-308 | the row takes the status unless the table refuses it |
| `ReminderWorker.AttemptOutcome` | apps/api/src/reminders/reminder.worker.ts:79-171 | what an attempt leaves behind, case by case: failed without a booking or past the window, cancelled when the booking is not booked, sending when there is no address, an opt-out or a reply to retry, failed on a permanent error, sent on success; claim, lease and provider accordingly, other rows untouched |
| `ReminderWorker.GivenUpAfterADay` | apps/api/src/reminders/reminder.worker.ts:29-136 | with the constants in force a row is given up exactly when its window test comes 24 hours or more after its fire time |
| `ReminderWorker.DueExactly` | apps/api/src/reminders/reminder.worker.ts:58-63 | due are unlocked rows that are scheduled, or sending under a lease that has run out |
| `ReminderWorker.AloneIsProcess` | apps/api/src/reminders/reminder.worker.ts:79-171 | an uninterrupted attempt, statement by statement, equals the whole call |
| `ReminderWorker.OptOutLeavesSending` | apps/api/src/reminders/reminder.worker.ts:146-150 | an opted-out client gets no email and the row stays 'sending' |
| `Delivery.DeliveryTimes` | apps/api/src/reminders/reminder.worker.ts:131-157 | over every run an email leaves between its fire time and the retry window plus latency after it, and two for one reminder at least 24 hours apart |
| `Delivery.AtMostOneEmail` | apps/api/src/reminders/reminder.worker.ts:29-157 | with window plus latency below the retention, no run with crashes, retries and any number of workers emails a reminder twice |
| `Delivery.AtMostTwoEmails` | apps/api/src/reminders/reminder.worker.ts:131-157 | with window plus latency below twice the retention there is never a third email |
| `Delivery.WorldMoves` | apps/api/src/reminders/reminder.queue.ts:85-99 | the system may let time pass, lose any job or attempt, and begin an attempt exactly for a job that is ready |
| `DeliveryReads.EmailsForExactly` | apps/api/src/reminders/reminder.worker.ts:152-156 | the emails counted for a booking are all those handed on for it |
| `Delivery.SentWasEmailed` | apps/api/src/reminders/reminder.worker.ts:155-157 | over every run from tables without sent rows, a row that says 'sent' has had its email |
| `DuplicateEmail.SecondEmail` | apps/api/src/reminders/reminder.worker.ts:131-157 | otherwise there is a run from one open slot that emails a reminder twice, one retention apart |
| `DuplicateEmail.NeverTwiceExactly` | apps/api/src/reminders/reminder.worker.ts:29-157 | for any window, retention and latency: every run emails each reminder at most once if and only if window plus latency is below the retention |
| `DuplicateEmail.ChronosNeverTwice` | apps/api/src/reminders/reminder.worker.ts:29 | with the constants in force, if and only if the latency is zero |
| `DeliveryReads.SendFollowsReads` | apps/api/src/reminders/reminder.worker.ts:110-129 | every send follows, in the same attempt, a read of the row as sending and then of the booking as booked |
| `DeliveryReads.LateAttemptNeverSends` | apps/api/src/reminders/reminder.worker.ts:83-129 | an attempt begun after its booking ended never touches the provider, without PATCH back to booked |
| `DeliveryReads.EndedBookingGetsNoEmail` | apps/api/src/reminders/reminder.queue.ts:155-164 | once a booking has ended and no attempt is past its booking check, no email for it ever follows, whatever jobs are still queued |
| `DeliveryReads.StepIsEvent` | apps/api/src/reminders/reminder.queue.ts:47-54 | every action of the whole system acts on every stored row as one of the row's own events |
| `DeliveryReads.RunRowForward` | apps/api/src/reminders/reminder.worker.ts:83-87 | over every run a row's status never goes back, its attempts grow by exactly its claims, and it is claimed at most once |
| `EmailKeys.KeyTextInjective` | apps/api/src/reminders/reminder.worker.ts:153 | different reminders never share an idempotency key |
| `EmailKeys.JobTextInjective` | apps/api/src/reminders/reminder.queue.ts:60 | different reminders never share a job id |
| `EmailKeys.TextsInUse` | apps/api/src/reminders/reminder.worker.ts:153 | the key and job texts of the two offsets in use, letter by letter |
| `Zone.GapUsesOffsetBefore` | packages/time/src/time-core.ts:40-59 | a skipped wall-clock time is shown at no instant and is read with the offset before the gap |
| `Zone.RealUsesFirstOccurrence` | packages/time/src/time-core.ts:40-59 | any other wall-clock time resolves to the first instant that shows it |
| `Zone.ResolveMonotone` | packages/time/src/time-core.ts:40-59 | resolution keeps the order of times at least the largest forward jump apart |
| `Zone.ResolveIncreasing` | packages/time/src/time-core.ts:40-59 | where nothing is skipped resolution is strictly increasing |
| `Zone.ElapsedRepeats` | packages/time/src/time-core.ts:40-59 | between wall-clock times with nothing skipped between them, elapsed time is clock time plus the folds passed |
| `SlotGeneration.GenerateSlots` | packages/time/src/time-core.ts:96-160 | the two loops end and return the sorted slots of all dates, or refuse slot lengths outside 5 to 240 |
| `SlotGeneration.PushDay` | packages/time/src/time-core.ts:136-154 | the inner loop ends and appends exactly the date's slots |
| `SlotGeneration.GeneratedExactly` | packages/time/src/time-core.ts:116-159 | for every zone and rule, gaps and folds included: the output holds exactly the slots between successive grid points of the dates of the weekdays listed, window 09:00 to 17:00 by default, that resolve in order |
| `SlotGeneration.WeekdayIso` | packages/time/src/time-core.ts:118-120 | weekdays run from Monday, 1, to Sunday, 7, with 5 January 1970 a Monday |
| `SlotGeneration.GenerateSorted` | packages/time/src/time-core.ts:159 | the output is sorted by start and holds exactly the dates' slots |
| `SlotGeneration.GeneratedDisjoint` | packages/time/src/time-core.ts:138-154 | slots are pairwise disjoint in every zone whose forward jumps are at most the slot length and whose daily windows leave room for the largest |
| `SlotGeneration.HourSlotsDisjoint` | apps/api/src/materialize/materializer.service.ts:30 | 60-minute slots never overlap in zones with jumps of an hour or less, whatever the daily window |
| `SlotGeneration.SteadyDisjoint` | packages/time/src/time-core.ts:138-154 | slots are disjoint when each date's window holds nothing skipped, or no jump exceeds the slot length |
| `SlotGeneration.OfficeHoursDisjoint` | packages/db/src/materializer.ts:8 | half-hour slots from nine to five never overlap in zones with jumps of an hour or less when no jump falls into those hours |
| `SlotGeneration.DatesInOrder` | packages/time/src/time-core.ts:116-158 | slots of earlier dates start before slots of later ones, even where slots of one date overlap |
| `SlotBound.SlotLengthIsTheBound` | packages/time/src/time-core.ts:138-154 | all zones with jumps up to a bound give disjoint slots if and only if the bound is at most the slot length |
| `SlotBound.SkippingOverlaps` | packages/time/src/time-core.ts:148-152 | a jump one millisecond longer than the slot already gives overlapping slots |
| `SlotGeneration.DayTiles` | packages/time/src/time-core.ts:135-154 | on a date with nothing skipped and a window ending by 23:59, the slots abut from the resolved start and number as many as the window holds |
| `SlotGeneration.MidnightCutsLast` | packages/time/src/time-core.ts:138-152 | a window ending at 24:00 has the slots of one ending at 23:59 and, of a slot that would end at midnight, what is left up to 23:00 |
| `SlotGeneration.SlotLength` | packages/time/src/time-core.ts:141-152 | where nothing is skipped a slot lasts its nominal length plus exactly the folds passed inside it, which is never negative |
| `SlotGeneration.GenerateSplits` | packages/time/src/time-core.ts:116-159 | generating a range is merging its two halves, for every zone and rule |
| `Materialize.SlotTable.MaterializeProvider` | packages/db/src/materializer.ts:7-13 | the loop stores the generated half-hour slots one by one, skipping conflicts |
| `Materialize.SlotTable.InsertSlots` | packages/db/src/materializer.ts:9-12 | the insert loop equals the recursive insertion the lemmas are about |
| `Materialize.InsertEachStoresSlots` | packages/db/src/materializer.ts:9-12 | every row added is of the provider, open, and starts and ends as a generated slot does |
| `Materialize.ProviderRows` | packages/db/src/materializer.ts:7-13 | every row the provider materializer adds is a half hour of some date between nine and five, local time |
| `Materialize.InsertOneExactly` | packages/db/src/materializer.ts:10 | a slot is stored exactly when no row of its provider shares its start or an instant with it, and nothing else changes |
| `Materialize.OverlapsExactly` | packages/db/migrations/002_phase2_full_schema.sql:89-90 | two rows overlap when they are of one provider and share an instant |
| `Materialize.InsertEachSafe` | packages/db/src/materializer.ts:7-13 | stored slots stay non-overlapping whatever is generated, and existing rows stay as they are |
| `Materialize.InsertEachMaximal` | packages/db/src/materializer.ts:9-12 | every generated slot is stored or conflicts with a stored one |
| `Materialize.InsertEachIdempotent` | packages/db/src/materializer.ts:7-13 | materializing the same slots again changes nothing |
| `Materialize.RollingEqualsOneRun` | packages/db/src/materializer.ts:7-13 | rolling the window day by day stores the same table as one run over the whole range, for any slot length and jumps, when daily windows leave room for the largest jump |
| `Materialize.OfficeHoursRoll` | packages/db/src/materializer.ts:7-13 | so for the half-hour slots from nine to five in every zone with jumps of an hour or less |
| `WeeklyMaterializer.GroupRules` | apps/api/src/materialize/materializer.service.ts:59-70 | the loop groups the rules by weekday and lists each weekday once, in order of first appearance |
| `WeeklyMaterializer.GroupedEarliest` | apps/api/src/materialize/materializer.service.ts:60-64 | the window kept for a weekday starts no later than any of its rules |
| `WeeklyMaterializer.GroupedFromRule` | apps/api/src/materialize/materializer.service.ts:60-64 | it is the window of the first earliest-starting rule of that weekday |
| `WeeklyMaterializer.ExpandWeek` | apps/api/src/materialize/materializer.service.ts:70-88 | the expansion loop concatenates the weekdays' generated slots |
| `WeeklyMaterializer.ExpandIsSweep` | apps/api/src/materialize/materializer.service.ts:66-88 | expanding weekday by weekday and merging yields one sweep of the dates with each weekday's own window |
| `WeeklyMaterializer.ExpandExactly` | apps/api/src/materialize/materializer.service.ts:70-88 | the expansion holds exactly the slots of each weekday's grid on that weekday's dates |
| `WeeklyMaterializer.HourlyWeekFits` | apps/api/src/materialize/materializer.service.ts:30 | in zones with jumps of an hour or less the hourly slots of a week stay clear of each other when its windows start alike, however long, or leave an hour before the earliest start |
| `WeeklyMaterializer.BatchSafe` | apps/api/src/materialize/materializer.service.ts:98 | whatever the batch, stored slots stay non-overlapping and existing rows untouched |
| `WeeklyMaterializer.BatchExactly` | apps/api/src/materialize/materializer.service.ts:97-102 | of slots clear of each other a batch goes through if and only if each has a stored start or is clear of all stored rows, and then adds exactly the new ones |
| `WeeklyMaterializer.FitsExactly` | apps/api/src/materialize/materializer.service.ts:98 | a slot fits when a stored row of its provider starts with it or none shares an instant with it; other providers do not matter |
| `WeeklyMaterializer.NewRowsExactly` | apps/api/src/materialize/materializer.service.ts:90-98 | the rows added start and end as slots of the batch whose start no stored row of the provider has |
| `WeeklyMaterializer.RunWeekAdds` | apps/api/src/materialize/materializer.service.ts:60-102 | a run adds exactly the sweep's slots whose start is new when every slot has a stored start or is clear of all stored rows, and otherwise nothing, in whatever weekday order |
| `WeeklyMaterializer.RollingWeekExactly` | apps/api/src/materialize/materializer.service.ts:46-102 | rolling the window day by day gives the table of one run over the whole range if and only if every slot of the range fits the table or no daily run would add a row to it |
| `WeeklyMaterializer.MovedRuleDiffers` | apps/api/src/materialize/materializer.service.ts:97-102 | a table and rules for which the two differ: one run over two days stores nothing, the rolled second day stores its slot |
| `WeeklyMaterializer.StoreBatch` | apps/api/src/materialize/materializer.service.ts:97-102 | all of the batch is stored or none |
| `WeeklyMaterializer.MaterializeRules` | apps/api/src/materialize/materializer.service.ts:57-102 | the provider's table is that of one run, and the statistics count the whole batch as created, or as skipped or failed by the code the client reports |
| `EscapeHtml.EscapeIsOneMap` | apps/api/src/email/email.templates.ts:240-248 | the five sequential passes equal one map over the characters |
| `EscapeHtml.EscapeLeavesNoMarkup` | apps/api/src/email/email.templates.ts:240-248 | the output has no raw angle bracket or quote |
| `EscapeHtml.DecodeEscape` | apps/api/src/email/email.templates.ts:240-248 | decoding the five entities gives back every input |

## Left out

- Event types and the provider and event-type columns of a booking: a pre-check that only refuses, and columns nothing here reads.
- `cancelled_at`, `sent_at`, `last_error` and the provider's message id: written, and read by nothing here.
- Reminder row ids: a row is named by its unique (booking, offset) pair, and so is the payload of its job.
- The stored request text of an idempotency key is compared as the request it was made from.
- A COMMIT that succeeds while its answer is lost: a transaction either commits and answers or is rolled back.
- Statements that throw for reasons other than constraints: inside a transaction they are the lost connections of the interleaved model, after the commit of a create and in the enqueue loop they are modelled, in the clean-up after a decline, PATCH or reschedule, whose errors are swallowed, they are not.
- cancelBooking and LifecycleService between their reads and writes: atomic steps, except that the two writes of cancel also interleave as a transaction without guards. Key-share locks of foreign keys are not modelled.
- SlotGeneration.GenerateSlots: requires that the first date is not after the last; otherwise the program's date loop never meets its end test and runs until adding days throws at the date type's limit.
- ReminderTimes.ReminderFireTimes: the program sorts the printed instants, which agrees with their order when all are whole seconds.
- SlotGeneration.GenerateSorted: the printed instants are compared as the instants they print.
- Zone.ResolveMonotone: zones whose successive transitions are closer than their two jumps together are outside the model; local times are read by the transition list, so parsing and zone names are not part of it, nor are the other disambiguation policies.
- SlotGeneration.DayTiles: a window that ends at 24:00 is the subject of `MidnightCutsLast` instead, and times later than 24:00, which no `HH:MM` text names, are outside the disjointness results.
- WeeklyMaterializer.RollingWeekExactly: for rules whose last slots, on any two dates, leave room for the zone's largest jump, which is at most the slot length; otherwise slots of one batch may overlap and fail it by themselves.
- Auto-completion (`shouldAutoComplete`): one comparison that no caller uses.
- SlotBound.SlotLengthIsTheBound: stated where three slots and the jump fit in a day, so that a window can show the overlap.
- WeeklyMaterializer.MaterializeRules: which code the database client reports for a failing statement is a parameter, because the client is not part of this model; the text of the batch statement is not modelled, only its effect, and the column list it builds from JSON is taken at face value; the loop over providers and the logging are left out.
- Delivery.AtMostOneEmail: one clock for workers, queue and provider; the provider remembers a key for exactly 24 hours from the email it produced.
- ReminderRows.ClaimsApart: assumes that the clocks of the claiming workers do not run backwards from claim to claim.
- BookingService.BookingService.CreateBooking: the rows it enqueues are read back in the order they were inserted; activity records and notifications are not modelled.
- The endpoint that calls the worker without a claim (`handleJob`) has no caller and is not part of the delivery system; `claimDue` appears only in the lease property.
- Authentication, sessions, tokens, throttling, notifications, reports, billing, search, the web application, email layout and calendar files.
