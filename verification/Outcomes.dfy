/** What each request answers and changes, exactly, said over the fields of the request and the rows
    of the tables alone. */
module Outcomes {
  import opened Tables
  import opened Requests
  import Interleaving

  /** No booking on the slot is anything but cancelled. */
  predicate Vacant(bookings: Bookings, slot: Uuid) {
    forall b | b in bookings :: bookings[b].slot == slot ==> bookings[b].status == Cancelled
  }

  lemma VacantExactly(bookings: Bookings, slot: Uuid)
    ensures Vacant(bookings, slot) <==> !HasLive(bookings, slot)
  {
  }

  /** Every slot but those listed is as it was, and none changes more than its status. */
  predicate OtherSlotsSame(before: Slots, after: Slots, changed: set<Uuid>) {
    after.Keys == before.Keys &&
    forall s | s in before ::
      after[s].(status := before[s].status) == before[s] && (s !in changed ==> after[s] == before[s])
  }

  predicate OtherBookingsSame(before: Bookings, after: Bookings, changed: set<Uuid>) {
    before.Keys <= after.Keys && after.Keys <= before.Keys + changed &&
    forall b | b in before && b !in changed :: after[b] == before[b]
  }

  // ---------- create ----------

  /** The request carries a key that is not empty. */
  predicate Keyed(key: Option<string>) {
    key.Some? && |key.value| > 0
  }

  /** The request's own client has used its key before. */
  predicate KeyUsed(db: Db, r: RequestBody)
    requires r.CreateRequest?
  {
    Keyed(r.createKey) && KeyId(r.clientId, r.createKey.value) in db.keys
  }

  /** The slot is open, far enough ahead and vacant, and the new booking's ids are unused. */
  predicate CreateMeets(db: Db, c: Call)
    requires c.CreateCall? && c.WellFormed()
  {
    var s := c.create.slotId;
    s in db.slots && db.slots[s].status == SlotOpen &&
    db.slots[s].start >= c.now && db.slots[s].start - c.now >= c.notice * 60 * 60 * 1000 &&
    c.newId !in db.bookings && Vacant(db.bookings, s) &&
    (db.slots[s].start - c.clock1440 > 1440 * 60_000 ==> ReminderId(c.newId, 1440) !in db.reminders) &&
    (db.slots[s].start - c.clock60 > 60 * 60_000 ==> ReminderId(c.newId, 60) !in db.reminders)
  }

  /** A create under a key its client has used is answered from the key's row, one under any other key by the
      slot alone: other clients' key rows do not matter. */
  lemma CreateAnswers(db: Db, c: Call)
    requires c.CreateCall? && c.WellFormed()
    ensures KeyUsed(db, c.create) ==>
              var row := db.keys[KeyId(c.create.clientId, c.create.createKey.value)];
              Apply(db, c) == (db, if row.body == c.create then Replayed(row.bookingId) else Rejected(KeyReuse))
    ensures !KeyUsed(db, c.create) && CreateMeets(db, c) ==> Apply(db, c).1 == Created(c.newId)
    ensures !KeyUsed(db, c.create) && !CreateMeets(db, c) ==> Apply(db, c) == (db, Rejected(SlotUnavailable))
  {
    VacantExactly(db.bookings, c.create.slotId);
  }

  /** So the key rows of other clients have no part in a create's answer. */
  lemma OtherClientsKeysDoNotMatter(db: Db, keys: Keys, c: Call)
    requires c.CreateCall? && c.WellFormed()
    requires forall k: KeyId | k.client == c.create.clientId ::
               (k in keys <==> k in db.keys) && (k in keys ==> keys[k] == db.keys[k])
    ensures Apply(db.(keys := keys), c).1 == Apply(db, c).1
  {
    CreateAnswers(db, c);
    CreateAnswers(db.(keys := keys), c);
    var k := KeyId(c.create.clientId, if c.create.createKey.Some? then c.create.createKey.value else "");
    assert k in keys <==> k in db.keys;
  }

  /** What a successful create changes. */
  lemma CreateChanges(db: Db, c: Call)
    requires c.CreateCall? && c.WellFormed() && Apply(db, c).1.Created?
    ensures var db', s := Apply(db, c).0, c.create.slotId;
            OtherSlotsSame(db.slots, db'.slots, {s}) && s in db'.slots && db'.slots[s].status == SlotBooked &&
            OtherBookingsSame(db.bookings, db'.bookings, {c.newId}) && c.newId in db'.bookings &&
            db'.bookings[c.newId] == Booking(s, c.create.clientId, c.create.timezone, Booked, 1)
    ensures Apply(db, c).0.keys ==
            if Keyed(c.create.createKey)
            then db.keys[KeyId(c.create.clientId, c.create.createKey.value) := KeyRow(c.create, c.newId)] else db.keys
  {
  }

  /** The reminder rows of a successful create: the old ones, and each offset still to come. */
  lemma CreateRows(db: Db, c: Call, r: ReminderId)
    requires c.CreateCall? && c.WellFormed() && Apply(db, c).1.Created?
    ensures c.create.slotId in db.slots
    ensures var start := db.slots[c.create.slotId].start;
            var due := (r == ReminderId(c.newId, 1440) && start - c.clock1440 > 1440 * 60_000) ||
                       (r == ReminderId(c.newId, 60) && start - c.clock60 > 60 * 60_000);
            var rows := Apply(db, c).0.reminders;
            (r in rows <==> r in db.reminders || due) &&
            (due ==> rows[r] == Reminder(start - r.offset * 60_000, Scheduled, 0, None)) &&
            (r in db.reminders && !due ==> rows[r] == db.reminders[r])
  {
  }

  // ---------- reschedule ----------

  /** When the slot being left starts; a missing one counts as starting now. */
  function LeftStart(db: Db, b: Uuid, now: int): int
    requires b in db.bookings
  {
    if db.bookings[b].slot in db.slots then db.slots[db.bookings[b].slot].start else now
  }

  predicate MoveVersionFits(db: Db, r: RequestBody)
    requires r.RescheduleRequest? && r.bookingId in db.bookings
  {
    r.version == db.bookings[r.bookingId].version && r.ifMatch == db.bookings[r.bookingId].version
  }

  /** The slot left is still outside the window: the request's, or 24 hours. */
  predicate MoveInWindow(db: Db, c: Call)
    requires c.RescheduleCall? && c.WellFormed() && c.move.bookingId in db.bookings
  {
    match c.move.window
    case None => c.now + 24 * 60 * 60 * 1000 <= LeftStart(db, c.move.bookingId, c.now)
    case Some(hours) => c.now + hours * 60 * 60 * 1000 <= LeftStart(db, c.move.bookingId, c.now)
  }

  /** The new slot is open, ahead and, once the old booking is gone, vacant; the ids and the key are unused. */
  predicate MoveMeets(db: Db, c: Call)
    requires c.RescheduleCall? && c.WellFormed() && c.move.bookingId in db.bookings
  {
    var r := c.move;
    r.newSlotId in db.slots && db.slots[r.newSlotId].status == SlotOpen && db.slots[r.newSlotId].start > c.now &&
    c.newId !in db.bookings &&
    (forall b | b in db.bookings && b != r.bookingId ::
      db.bookings[b].slot == r.newSlotId ==> db.bookings[b].status == Cancelled) &&
    (db.slots[r.newSlotId].start - c.now > 1440 * 60_000 ==> ReminderId(c.newId, 1440) !in db.reminders) &&
    (db.slots[r.newSlotId].start - c.now > 60 * 60_000 ==> ReminderId(c.newId, 60) !in db.reminders) &&
    (Keyed(r.moveKey) ==> KeyId(db.bookings[r.bookingId].client, r.moveKey.value) !in db.keys)
  }

  lemma MoveVacant(db: Db, c: Call)
    requires c.RescheduleCall? && c.WellFormed() && c.move.bookingId in db.bookings
    ensures HasLive(CancelBookingRow(db.bookings, c.move.bookingId), c.move.newSlotId) <==>
            !forall b | b in db.bookings && b != c.move.bookingId ::
              db.bookings[b].slot == c.move.newSlotId ==> db.bookings[b].status == Cancelled
  {
    var cancelled := CancelBookingRow(db.bookings, c.move.bookingId);
    assert cancelled.Keys == db.bookings.Keys && !cancelled[c.move.bookingId].Live();
    if b :| b in db.bookings && b != c.move.bookingId && db.bookings[b].slot == c.move.newSlotId &&
            db.bookings[b].status != Cancelled {
      assert cancelled[b] == db.bookings[b];
    }
  }

  /** The first test a reschedule fails names its answer, and nothing changes; one that fails none succeeds. */
  lemma MoveAnswers(db: Db, c: Call)
    requires c.RescheduleCall? && c.WellFormed()
    ensures c.move.bookingId !in db.bookings ==> Apply(db, c) == (db, Rejected(NotFound))
    ensures c.move.bookingId in db.bookings ==>
              if !MoveVersionFits(db, c.move) then Apply(db, c) == (db, Rejected(VersionMismatch))
              else if db.bookings[c.move.bookingId].status != Booked
                  then Apply(db, c) == (db, Rejected(InvalidTransition))
              else if !MoveInWindow(db, c) then Apply(db, c) == (db, Rejected(WindowExpired))
              else if !MoveMeets(db, c) then Apply(db, c) == (db, Rejected(SlotUnavailable))
              else Apply(db, c).1 == Created(c.newId)
  {
    if c.move.bookingId in db.bookings {
      MoveVacant(db, c);
    }
  }

  /** What a successful reschedule changes: the slot won is booked and the one left open, even if it is the same. */
  lemma MoveChanges(db: Db, c: Call)
    requires c.RescheduleCall? && c.WellFormed() && Apply(db, c).1.Created?
    ensures c.move.bookingId in db.bookings && c.move.newSlotId in db.slots
    ensures var db', r, prev := Apply(db, c).0, c.move, db.bookings[c.move.bookingId];
            OtherSlotsSame(db.slots, db'.slots, {r.newSlotId, prev.slot}) &&
            (prev.slot in db.slots ==> db'.slots[prev.slot].status == SlotOpen) &&
            (prev.slot != r.newSlotId ==> db'.slots[r.newSlotId].status == SlotBooked) &&
            OtherBookingsSame(db.bookings, db'.bookings, {r.bookingId, c.newId}) &&
            r.bookingId in db'.bookings && db'.bookings[r.bookingId] == prev.(status := Cancelled) &&
            c.newId in db'.bookings &&
            db'.bookings[c.newId] ==
            Booking(r.newSlotId, prev.client, if |prev.timezone| == 0 then "UTC" else prev.timezone, Booked,
                    prev.version + 1) &&
            db'.keys ==
            if Keyed(r.moveKey) then db.keys[KeyId(prev.client, r.moveKey.value) := KeyRow(r, c.newId)] else db.keys
  {
  }

  /** Its reminder rows: the old booking's cancelled, others as they were, and each offset still to come. */
  lemma MoveRows(db: Db, c: Call, r: ReminderId)
    requires c.RescheduleCall? && c.WellFormed() && Apply(db, c).1.Created?
    ensures c.move.newSlotId in db.slots
    ensures var start, rows := db.slots[c.move.newSlotId].start, Apply(db, c).0.reminders;
            var due := r.booking == c.newId && r.offset in {1440, 60} && start - c.now > r.offset * 60_000;
            (r in rows <==> r in db.reminders || due) &&
            (due ==> rows[r] == Reminder(start - r.offset * 60_000, Scheduled, 0, None)) &&
            (r in db.reminders && !due ==>
              rows[r] == if r.booking == c.move.bookingId
                         then db.reminders[r].(status := ReminderCancelled) else db.reminders[r])
  {
  }

  // ---------- confirm, decline and PATCH status ----------

  /** The bookings differ at `id` only, by the status given and one version; nothing else changes. */
  predicate StatusSet(db: Db, db': Db, id: Uuid, to: BookingStatus)
    requires id in db.bookings
  {
    db'.slots == db.slots && db'.reminders == db.reminders && db'.keys == db.keys &&
    OtherBookingsSame(db.bookings, db'.bookings, {id}) && id in db'.bookings &&
    db'.bookings[id] == db.bookings[id].(status := to, version := db.bookings[id].version + 1)
  }

  lemma DecideAnswers(db: Db, id: Uuid, client: Uuid, decline: bool)
    ensures var c := if decline then DeclineCall(id, client) else ConfirmCall(id, client);
            if id !in db.bookings then Apply(db, c) == (db, Rejected(NotFound))
            else if db.bookings[id].client != client then Apply(db, c) == (db, Rejected(Forbidden))
            else if db.bookings[id].status != Booked then Apply(db, c) == (db, Rejected(InvalidTransition))
            else Apply(db, c).1 == Updated(db.bookings[id].version + 1) &&
                 StatusSet(db, Apply(db, c).0, id, if decline then Cancelled else Completed)
  {
  }

  /** A listed status the table admits, spelt as the API spells it. */
  predicate Admits(to: string, status: BookingStatus) {
    (to == "completed" && status == Completed) || (to == "cancelled" && status == Cancelled) ||
    (to == "booked" && status == Booked)
  }

  lemma PatchAnswers(db: Db, id: Uuid, client: Uuid, to: string, status: BookingStatus)
    ensures var c := PatchCall(id, client, to);
            if id !in db.bookings then Apply(db, c) == (db, Rejected(NotFound))
            else if db.bookings[id].client != client then Apply(db, c) == (db, Rejected(Forbidden))
            else if to !in ["confirmed", "declined", "completed", "cancelled", "booked"]
            then Apply(db, c) == (db, Rejected(InvalidStatus))
            else if to in ["confirmed", "declined"] then Apply(db, c) == (db, Rejected(ConstraintViolation))
            else Admits(to, status) ==>
                   if db.bookings[id].status == Cancelled && status != Cancelled &&
                       !Vacant(db.bookings, db.bookings[id].slot)
                   then Apply(db, c) == (db, Rejected(ConstraintViolation))
                   else Apply(db, c).1 == Updated(db.bookings[id].version + 1) &&
                        StatusSet(db, Apply(db, c).0, id, status)
  {
    if id in db.bookings {
      VacantExactly(db.bookings, db.bookings[id].slot);
    }
  }

  // ---------- cancel and the lifecycle service ----------

  /** The bookings differ at `id` only, by being cancelled under the version given; its slot, if stored, is open. */
  predicate Ended(db: Db, db': Db, id: Uuid, version: int)
    requires id in db.bookings
  {
    db'.reminders == db.reminders && db'.keys == db.keys &&
    OtherSlotsSame(db.slots, db'.slots, {db.bookings[id].slot}) &&
    (db.bookings[id].slot in db.slots ==> db'.slots[db.bookings[id].slot].status == SlotOpen) &&
    OtherBookingsSame(db.bookings, db'.bookings, {id}) && id in db'.bookings &&
    db'.bookings[id] == db.bookings[id].(status := Cancelled, version := version)
  }

  /** Cancel: the caller's own booked booking, of the version named, outside the provider's window. */
  lemma CancelAnswers(db: Db, c: Call)
    requires c.CancelCall?
    ensures if c.id !in db.bookings then Apply(db, c) == (db, Rejected(NotFound))
            else if db.bookings[c.id].client != c.client then Apply(db, c) == (db, Rejected(Forbidden))
            else if c.ifMatch != db.bookings[c.id].version then Apply(db, c) == (db, Rejected(VersionMismatch))
            else if db.bookings[c.id].status != Booked then Apply(db, c) == (db, Rejected(InvalidTransition))
            else if c.now + c.window * 60 * 60 * 1000 > LeftStart(db, c.id, c.now)
            then Apply(db, c) == (db, Rejected(WindowExpired))
            else Apply(db, c).1 == NoContent && Ended(db, Apply(db, c).0, c.id, db.bookings[c.id].version)
  {
  }

  /** `LifecycleService.transition`: from booked to any other status, of the version named if one is. */
  lemma TransitionAnswers(db: Db, id: Uuid, to: BookingStatus, expected: Option<int>)
    ensures var c := TransitionCall(id, to, expected);
            if id !in db.bookings then Apply(db, c) == (db, Rejected(NotFound))
            else if expected.Some? && expected.value != db.bookings[id].version
            then Apply(db, c) == (db, Rejected(VersionMismatch))
            else if db.bookings[id].status != Booked || to == Booked
                then Apply(db, c) == (db, Rejected(InvalidTransition))
            else if to != Cancelled
            then Apply(db, c).1 == Updated(db.bookings[id].version + 1) && StatusSet(db, Apply(db, c).0, id, to)
            else if db.bookings[id].slot !in db.slots then Apply(db, c) == (db, Rejected(NotFound))
            else Apply(db, c).1 == Updated(db.bookings[id].version + 1) &&
                 Ended(db, Apply(db, c).0, id, db.bookings[id].version + 1)
  {
  }

  lemma LifecycleCancelAnswers(db: Db, id: Uuid, window: int, now: int)
    ensures var c := LifecycleCancelCall(id, window, now);
            if id !in db.bookings then Apply(db, c) == (db, Rejected(NotFound))
            else if db.bookings[id].status != Booked then Apply(db, c) == (db, Rejected(InvalidTransition))
            else if db.bookings[id].slot !in db.slots then Apply(db, c) == (db, Rejected(NotFound))
            else if now + window * 60 * 60 * 1000 > db.slots[db.bookings[id].slot].start
            then Apply(db, c) == (db, Rejected(WindowExpired))
            else Apply(db, c).1 == Updated(db.bookings[id].version + 1) &&
                 Ended(db, Apply(db, c).0, id, db.bookings[id].version + 1)
  {
  }

  /** The bare writes of cancel test nothing. */
  lemma CancelWritesChanges(db: Db, id: Uuid, slot: Uuid)
    ensures var db' := Apply(db, CancelWrites(id, slot)).0;
            db'.reminders == db.reminders && db'.keys == db.keys &&
            OtherSlotsSame(db.slots, db'.slots, {slot}) && (slot in db.slots ==> db'.slots[slot].status == SlotOpen) &&
            OtherBookingsSame(db.bookings, db'.bookings, {id}) && db'.bookings.Keys == db.bookings.Keys &&
            (id in db.bookings ==> db'.bookings[id] == db.bookings[id].(status := Cancelled))
    ensures Apply(db, CancelWrites(id, slot)).1 == NoContent
  {
  }

  // ---------- which requests get as far as a transaction ----------

  /** A create starts its transaction unless its client has used its key; a reschedule unless a test before it
      fails; a cancel exactly when it would be carried out, with nothing left to do but its two writes. */
  lemma AdmittedExactly(db: Db, c: Call)
    requires c.WellFormed()
    ensures c.CreateCall? ==> Interleaving.Admitted(db, c) == if KeyUsed(db, c.create) then None else Some(c)
    ensures c.RescheduleCall? ==>
              Interleaving.Admitted(db, c) ==
              if Apply(db, c).1 in {Rejected(NotFound), Rejected(VersionMismatch), Rejected(InvalidTransition),
                                    Rejected(WindowExpired)} then None else Some(c)
    ensures c.CancelCall? ==>
              if Apply(db, c).1.NoContent?
              then c.id in db.bookings &&
                  Interleaving.Admitted(db, c) == Some(CancelWrites(c.id, db.bookings[c.id].slot))
              else Interleaving.Admitted(db, c) == None
    ensures c.ConfirmCall? || c.DeclineCall? || c.PatchCall? ==> Interleaving.Admitted(db, c) == Some(c)
  {
  }

  /** The notice in force: the provider's, unless it has none or zero. */
  lemma NoticeInForce(stored: Option<int>)
    ensures stored.Some? && stored.value != 0 ==> ResolveNotice(stored) == stored.value
    ensures stored == None || stored == Some(0) ==> ResolveNotice(stored) == 4
  {
  }
}
