/** Each request as one atomic step on the tables: the reference meaning against
    which both the statement-by-statement transactions and the imperative
    services are proved. */
module Requests {
  import opened Tables
  import BookingRules

  datatype Reason =
    | NotFound | Forbidden | InvalidStatus | VersionMismatch | InvalidTransition
    | WindowExpired | SlotUnavailable | KeyReuse | ConstraintViolation | FailedAfterCommit

  datatype Reply =
    | Created(id: Uuid)
    | Replayed(id: Uuid)
    | Updated(version: int)
    | NoContent
    | Rejected(reason: Reason)

  /** A request together with what it reads from outside the tables: its clock
      readings, the provider's settings and the id the database draws. */
  datatype Call =
    | CreateCall(create: RequestBody, now: int, notice: int, clock1440: int, clock60: int, newId: Uuid)
    | RescheduleCall(move: RequestBody, now: int, newId: Uuid)
    | ConfirmCall(id: Uuid, client: Uuid)
    | DeclineCall(id: Uuid, client: Uuid)
    | PatchCall(id: Uuid, client: Uuid, to: string)
    | CancelCall(id: Uuid, client: Uuid, ifMatch: int, window: int, now: int)
    | CancelWrites(id: Uuid, slot: Uuid)
    | TransitionCall(id: Uuid, target: BookingStatus, expected: Option<int>)
    | LifecycleCancelCall(id: Uuid, window: int, now: int)
  {
    predicate WellFormed() {
      (CreateCall? ==> create.CreateRequest?) && (RescheduleCall? ==> move.RescheduleRequest?)
    }
  }

  /** Hours of notice in force: the provider's stored value, 4 when absent or 0. */
  function ResolveNotice(stored: Option<int>): int {
    if stored.None? || stored.value == 0 then 4 else stored.value
  }

  function CreateKeyId(r: RequestBody): KeyId
    requires r.CreateRequest? && HasKey(r.createKey)
  {
    KeyId(r.clientId, r.createKey.value)
  }

  /** The idempotency pre-check of `createBooking`: an answer without a transaction. */
  function CreatePrecheck(db: Db, r: RequestBody): Option<Reply>
    requires r.CreateRequest?
  {
    if HasKey(r.createKey) && CreateKeyId(r) in db.keys then
      var row := db.keys[CreateKeyId(r)];
      if row.body != r then Some(Rejected(KeyReuse)) else Some(Replayed(row.bookingId))
    else None
  }

  function BookSlot(slots: Slots, s: Uuid): Slots
    requires s in slots
  {
    slots[s := slots[s].(status := SlotBooked)]
  }

  function FreeSlot(slots: Slots, s: Uuid): Slots {
    if s in slots then slots[s := slots[s].(status := SlotOpen)] else slots
  }

  predicate CreateSlotFits(db: Db, c: Call)
    requires c.CreateCall? && c.WellFormed()
  {
    var s := c.create.slotId;
    s in db.slots && db.slots[s].status == SlotOpen &&
    db.slots[s].start >= c.now && db.slots[s].start >= c.now + c.notice * MS_PER_HOUR
  }

  /** One of the inserts of a create would violate a constraint. */
  predicate CreateClash(db: Db, c: Call)
    requires c.CreateCall? && c.WellFormed() && CreateSlotFits(db, c)
  {
    var start := db.slots[c.create.slotId].start;
    c.newId in db.bookings || HasLive(db.bookings, c.create.slotId) ||
    ReminderClash(db.reminders, c.newId, 1440, start, c.clock1440) ||
    ReminderClash(db.reminders, c.newId, 60, start, c.clock60)
  }

  function CreateReminders(reminders: Reminders, c: Call, start: int): Reminders
    requires c.CreateCall?
  {
    AddReminder(AddReminder(reminders, c.newId, 1440, start, c.clock1440), c.newId, 60, start, c.clock60)
  }

  function CreateWrites(db: Db, c: Call): Db
    requires c.CreateCall? && c.WellFormed() && CreateSlotFits(db, c)
  {
    var r := c.create;
    Db(BookSlot(db.slots, r.slotId),
       db.bookings[c.newId := Booking(r.slotId, r.clientId, r.timezone, Booked, 1)],
       CreateReminders(db.reminders, c, db.slots[r.slotId].start),
       if HasKey(r.createKey) then db.keys[CreateKeyId(r) := KeyRow(r, c.newId)] else db.keys)
  }

  function Create(db: Db, c: Call): (Db, Reply)
    requires c.CreateCall? && c.WellFormed()
  {
    var early := CreatePrecheck(db, c.create);
    if early.Some? then (db, early.value)
    else if !CreateSlotFits(db, c) || CreateClash(db, c) then (db, Rejected(SlotUnavailable))
    else (CreateWrites(db, c), Created(c.newId))
  }

  /** The status guard `rescheduleBooking` applies, first unlocked and again under the row lock. */
  function MoveGuard(db: Db, r: RequestBody): Option<Reason>
    requires r.RescheduleRequest?
  {
    if r.bookingId !in db.bookings then Some(NotFound)
    else
      var b := db.bookings[r.bookingId];
      if b.version != r.version || r.ifMatch != b.version then Some(VersionMismatch)
      else if b.status != Booked then Some(InvalidTransition)
      else None
  }

  function MoveWindow(r: RequestBody): int
    requires r.RescheduleRequest?
  {
    if r.window.None? then 24 else r.window.value
  }

  /** The cancellation window of the slot being left; a missing slot counts as starting now. */
  predicate MoveTooLate(db: Db, c: Call)
    requires c.RescheduleCall? && c.WellFormed() && c.move.bookingId in db.bookings
  {
    var s := db.bookings[c.move.bookingId].slot;
    var start := if s in db.slots then db.slots[s].start else c.now;
    BookingRules.RescheduleExpired(c.now, start, MoveWindow(c.move))
  }

  predicate MoveSlotFits(db: Db, c: Call)
    requires c.RescheduleCall? && c.WellFormed()
  {
    var s := c.move.newSlotId;
    s in db.slots && db.slots[s].status == SlotOpen && db.slots[s].start > c.now
  }

  function MoveKeyId(db: Db, r: RequestBody): KeyId
    requires r.RescheduleRequest? && HasKey(r.moveKey) && r.bookingId in db.bookings
  {
    KeyId(db.bookings[r.bookingId].client, r.moveKey.value)
  }

  function CancelBookingRow(bookings: Bookings, b: Uuid): Bookings {
    if b in bookings then bookings[b := bookings[b].(status := Cancelled)] else bookings
  }

  predicate MoveClash(db: Db, c: Call)
    requires c.RescheduleCall? && c.WellFormed() && c.move.bookingId in db.bookings && MoveSlotFits(db, c)
  {
    var r := c.move;
    var start := db.slots[r.newSlotId].start;
    c.newId in db.bookings || HasLive(CancelBookingRow(db.bookings, r.bookingId), r.newSlotId) ||
    ReminderClash(db.reminders, c.newId, 1440, start, c.now) ||
    ReminderClash(db.reminders, c.newId, 60, start, c.now) ||
    (HasKey(r.moveKey) && MoveKeyId(db, r) in db.keys)
  }

  /** The booking a reschedule inserts: same client, same zone ('UTC' if it was empty), next version. */
  function MovedBooking(prev: Booking, newSlot: Uuid): Booking {
    Booking(newSlot, prev.client, if prev.timezone == "" then "UTC" else prev.timezone, Booked, prev.version + 1)
  }

  function MoveReminders(reminders: Reminders, c: Call, start: int): Reminders
    requires c.RescheduleCall? && c.WellFormed()
  {
    AddReminder(AddReminder(CancelRows(reminders, c.move.bookingId), c.newId, 1440, start, c.now),
                c.newId, 60, start, c.now)
  }

  function MoveWrites(db: Db, c: Call): Db
    requires c.RescheduleCall? && c.WellFormed() && c.move.bookingId in db.bookings && MoveSlotFits(db, c)
  {
    var r := c.move;
    var prev := db.bookings[r.bookingId];
    Db(FreeSlot(BookSlot(db.slots, r.newSlotId), prev.slot),
       CancelBookingRow(db.bookings, r.bookingId)[c.newId := MovedBooking(prev, r.newSlotId)],
       MoveReminders(db.reminders, c, db.slots[r.newSlotId].start),
       if HasKey(r.moveKey) then db.keys[MoveKeyId(db, r) := KeyRow(r, c.newId)] else db.keys)
  }

  function Reschedule(db: Db, c: Call): (Db, Reply)
    requires c.RescheduleCall? && c.WellFormed()
  {
    var guard := MoveGuard(db, c.move);
    if guard.Some? then (db, Rejected(guard.value))
    else if MoveTooLate(db, c) then (db, Rejected(WindowExpired))
    else if !MoveSlotFits(db, c) || MoveClash(db, c) then (db, Rejected(SlotUnavailable))
    else (MoveWrites(db, c), Created(c.newId))
  }

  function SetStatus(db: Db, id: Uuid, to: BookingStatus): Db
    requires id in db.bookings
  {
    var b := db.bookings[id];
    db.(bookings := db.bookings[id := b.(status := to, version := b.version + 1)])
  }

  /** Confirm and decline: the caller's own booked booking changes status; the slot stays as it is. */
  function Decide(db: Db, id: Uuid, client: Uuid, to: BookingStatus): (Db, Reply) {
    if id !in db.bookings then (db, Rejected(NotFound))
    else if db.bookings[id].client != client then (db, Rejected(Forbidden))
    else if db.bookings[id].status != Booked then (db, Rejected(InvalidTransition))
    else (SetStatus(db, id, to), Updated(db.bookings[id].version + 1))
  }

  predicate PatchListed(to: string) {
    to in ["confirmed", "declined", "completed", "cancelled", "booked"]
  }

  /** The listed statuses the table's CHECK constraint lets through. */
  function StoredStatus(to: string): Option<BookingStatus> {
    if to == "completed" then Some(Completed)
    else if to == "cancelled" then Some(Cancelled)
    else if to == "booked" then Some(Booked)
    else None
  }

  /** Making booking `id` live again would put a second live booking on its slot. */
  predicate RevivalClash(bookings: Bookings, id: Uuid, to: BookingStatus)
    requires id in bookings
  {
    !bookings[id].Live() && to != Cancelled && HasLive(bookings, bookings[id].slot)
  }

  /** PATCH status: no guard on the current status, only the table's constraints. */
  function Patch(db: Db, id: Uuid, client: Uuid, to: string): (Db, Reply) {
    if id !in db.bookings then (db, Rejected(NotFound))
    else if db.bookings[id].client != client then (db, Rejected(Forbidden))
    else if !PatchListed(to) then (db, Rejected(InvalidStatus))
    else if StoredStatus(to).None? || RevivalClash(db.bookings, id, StoredStatus(to).value)
    then (db, Rejected(ConstraintViolation))
    else (SetStatus(db, id, StoredStatus(to).value), Updated(db.bookings[id].version + 1))
  }

  /** The two writes of `cancelBooking`, which carry no guard of their own. */
  function CancelTail(db: Db, id: Uuid, slot: Uuid): Db {
    db.(bookings := CancelBookingRow(db.bookings, id), slots := FreeSlot(db.slots, slot))
  }

  /** The unlocked reads of `cancelBooking` that decide whether it goes on to write. */
  function CancelGuard(db: Db, c: Call): Option<Reason>
    requires c.CancelCall?
  {
    if c.id !in db.bookings then Some(NotFound)
    else
      var b := db.bookings[c.id];
      if b.client != c.client then Some(Forbidden)
      else if c.ifMatch != b.version then Some(VersionMismatch)
      else
        var start := if b.slot in db.slots then db.slots[b.slot].start else c.now;
        match BookingRules.EvaluateCancellation(c.ifMatch, c.now, c.window, start, b.status, b.version)
        case Allowed => None
        case InvalidTransition => Some(InvalidTransition)
        case VersionMismatch => Some(VersionMismatch)
        case WindowExpired => Some(WindowExpired)
  }

  function Cancel(db: Db, c: Call): (Db, Reply)
    requires c.CancelCall?
  {
    var guard := CancelGuard(db, c);
    if guard.Some? then (db, Rejected(guard.value))
    else (CancelTail(db, c.id, db.bookings[c.id].slot), NoContent)
  }

  /** `LifecycleService.transition`: cancelling also frees the slot, which must exist. */
  function Transition(db: Db, id: Uuid, to: BookingStatus, expected: Option<int>): (Db, Reply) {
    if id !in db.bookings then (db, Rejected(NotFound))
    else
      var b := db.bookings[id];
      if expected.Some? && b.version != expected.value then (db, Rejected(VersionMismatch))
      else if !BookingRules.LifecycleAllows(b.status, to) then (db, Rejected(InvalidTransition))
      else if to == Cancelled && b.slot !in db.slots then (db, Rejected(NotFound))
      else
        var moved := SetStatus(db, id, to);
        (if to == Cancelled then moved.(slots := FreeSlot(db.slots, b.slot)) else moved, Updated(b.version + 1))
  }

  function LifecycleCancel(db: Db, id: Uuid, window: int, now: int): (Db, Reply) {
    if id !in db.bookings then (db, Rejected(NotFound))
    else
      var b := db.bookings[id];
      if b.status != Booked then (db, Rejected(InvalidTransition))
      else if b.slot !in db.slots then (db, Rejected(NotFound))
      else if BookingRules.LifecycleTooLate(now, db.slots[b.slot].start, window) then (db, Rejected(WindowExpired))
      else (SetStatus(db, id, Cancelled).(slots := FreeSlot(db.slots, b.slot)), Updated(b.version + 1))
  }

  function Apply(db: Db, c: Call): (Db, Reply)
    requires c.WellFormed()
  {
    match c
    case CreateCall(_, _, _, _, _, _) => Create(db, c)
    case RescheduleCall(_, _, _) => Reschedule(db, c)
    case ConfirmCall(id, client) => Decide(db, id, client, Completed)
    case DeclineCall(id, client) => Decide(db, id, client, Cancelled)
    case PatchCall(id, client, to) => Patch(db, id, client, to)
    case CancelCall(_, _, _, _, _) => Cancel(db, c)
    case CancelWrites(id, slot) => (CancelTail(db, id, slot), NoContent)
    case TransitionCall(id, target, expected) => Transition(db, id, target, expected)
    case LifecycleCancelCall(id, window, now) => LifecycleCancel(db, id, window, now)
  }

  predicate AllWellFormed(calls: seq<Call>) {
    forall i | 0 <= i < |calls| :: calls[i].WellFormed()
  }

  /** The tables after a sequence of requests, each run to its end before the next starts. */
  function Serial(db: Db, calls: seq<Call>): Db
    requires AllWellFormed(calls)
  {
    if calls == [] then db
    else Apply(Serial(db, calls[..|calls| - 1]), calls[|calls| - 1]).0
  }

  /** A sequence of requests is its first part followed by the rest. */
  lemma {:induction false} SerialSplit(db: Db, calls: seq<Call>, i: nat)
    requires AllWellFormed(calls) && i <= |calls|
    ensures Serial(db, calls) == Serial(Serial(db, calls[..i]), calls[i..])
  {
    if i == |calls| {
      assert calls[..i] == calls;
    } else {
      var front, tail := calls[..|calls| - 1], calls[i..];
      SerialSplit(db, front, i);
      assert front[..i] == calls[..i];
      assert tail[..|tail| - 1] == front[i..];
    }
  }
}
