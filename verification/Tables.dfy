/** The tables every request and worker shares: slots, bookings, reminder rows and
    idempotency keys.  Instants are integers (epoch milliseconds). */
module Tables {

  datatype Option<+T> = None | Some(value: T)

  function Max(a: int, b: int): int {
    if a < b then b else a
  }

  predicate Distinct<T(==)>(s: seq<T>) {
    forall i, j | 0 <= i < j < |s| :: s[i] != s[j]
  }

  /** A row id as the database draws it. */
  datatype Uuid = Uuid(text: string)

  const MS_PER_MINUTE := 60_000
  const MS_PER_HOUR := 3_600_000

  datatype SlotStatus = SlotOpen | SlotBooked | SlotBlocked

  datatype Slot = Slot(provider: Uuid, start: int, end: int, status: SlotStatus)

  datatype BookingStatus = Booked | Completed | Cancelled | NoShow

  datatype Booking = Booking(slot: Uuid, client: Uuid, timezone: string, status: BookingStatus, version: int) {
    /** Rows the partial unique index `bookings_one_live_per_slot` covers. */
    predicate Live() {
      status != Cancelled
    }
  }

  datatype ReminderStatus = Scheduled | Sending | Sent | ReminderCancelled | Skipped | Failed | Suppressed

  /** A reminder row is named by the pair its unique constraint covers. */
  datatype ReminderId = ReminderId(booking: Uuid, offset: int)

  datatype Reminder = Reminder(fireAt: int, status: ReminderStatus, attempts: int, lockedUntil: Option<int>)

  datatype KeyId = KeyId(client: Uuid, key: string)

  /** What `JSON.stringify(req)` is computed from. */
  datatype RequestBody =
    | CreateRequest(slotId: Uuid, clientId: Uuid, createKey: Option<string>, timezone: string)
    | RescheduleRequest(bookingId: Uuid, newSlotId: Uuid, moveKey: Option<string>,
                        version: int, ifMatch: int, window: Option<int>)

  datatype KeyRow = KeyRow(body: RequestBody, bookingId: Uuid)

  type Slots = map<Uuid, Slot>
  type Bookings = map<Uuid, Booking>
  type Reminders = map<ReminderId, Reminder>
  type Keys = map<KeyId, KeyRow>

  datatype Db = Db(slots: Slots, bookings: Bookings, reminders: Reminders, keys: Keys)

  /** Some live booking occupies `slot`: what the partial unique index looks up. */
  predicate HasLive(bookings: Bookings, slot: Uuid) {
    exists b | b in bookings :: bookings[b].slot == slot && bookings[b].Live()
  }

  function FireTime(start: int, offset: int): int {
    start - offset * MS_PER_MINUTE
  }

  /** The loop body that inserts one reminder row unless its fire time has passed. */
  function AddReminder(reminders: Reminders, booking: Uuid, offset: int, start: int, clock: int): Reminders {
    if FireTime(start, offset) > clock
    then reminders[ReminderId(booking, offset) := Reminder(FireTime(start, offset), Scheduled, 0, None)]
    else reminders
  }

  /** Inserting the row would violate the unique (booking, offset) constraint. */
  predicate ReminderClash(reminders: Reminders, booking: Uuid, offset: int, start: int, clock: int) {
    FireTime(start, offset) > clock && ReminderId(booking, offset) in reminders
  }

  /** `UPDATE reminder_jobs SET status = 'cancelled' WHERE booking_id = booking`, whatever the status was. */
  function CancelRows(reminders: Reminders, booking: Uuid): Reminders {
    map r | r in reminders ::
      if r.booking == booking then reminders[r].(status := ReminderCancelled) else reminders[r]
  }

  /** An empty idempotency key is falsy: the request is treated as having none. */
  predicate HasKey(key: Option<string>) {
    key.Some? && key.value != ""
  }
}
