/** The endpoints as they update the tables step by step, with rollback and with the queue
    work they do after their commit, proved against the atomic requests. */
module BookingService {
  import opened Tables
  import opened Requests
  import BookingRules
  import opened Storage
  import opened ReminderQueue
  import opened EmailKeys

  /** The scheduled reminders of a new booking, in the order they were inserted. */
  function NewOffsets(rows: Reminders, booking: Uuid): seq<int> {
    (if IsScheduled(rows, ReminderId(booking, 1440)) then [1440] else []) +
    (if IsScheduled(rows, ReminderId(booking, 60)) then [60] else [])
  }

  /** Clocks and failures of the work after a commit: `readsFail` when one of the reads before the
      enqueue throws, `faults` for its loop, `stuck` for the removal of jobs. */
  datatype QueueWork = QueueWork(now: int, added: int, readsFail: bool, faults: Faults, stuck: set<string>)

  /** Rows and jobs after the work that follows a commit, and whether nothing in it threw. */
  function Enqueued(rows: Reminders, jobs: Jobs, booking: Uuid, start: int, now: int, q: QueueWork): (Reminding, bool) {
    if q.readsFail then (Reminding(rows, jobs), false)
    else EnqueueEach(Reminding(rows, jobs), booking, start, NewOffsets(rows, booking), now, q.added, q.faults)
  }

  /** A create whose work after the commit throws has committed, yet answers with an error.  Repeated with
      its key it is answered with the booking it made; without one it finds its own slot taken. */
  lemma RetryAfterFailedWork(db: Db, c: Call, rows: Reminders, c': Call)
    requires c.CreateCall? && c.WellFormed() && Create(db, c).1.Created?
    requires c'.CreateCall? && c'.create == c.create
    ensures var after := Create(db, c).0.(reminders := rows);
            Create(after, c') ==
                (after, if HasKey(c.create.createKey) then Replayed(c.newId) else Rejected(SlotUnavailable))
  {
  }

  /** A read throws, or the loop reaches a row whose statement throws or whose add the queue refuses. */
  predicate WorkThrows(rows: Reminders, booking: Uuid, start: int, now: int, q: QueueWork) {
    q.readsFail ||
    exists offset | offset in {1440, 60} ::
      TurnFails(Reminding(rows, map[]), ReminderId(booking, offset), start, now, q.faults) &&
      IsScheduled(rows, ReminderId(booking, offset))
  }

  lemma OneTurn(m: Reminding, booking: Uuid, start: int, offset: int, now: int, q: QueueWork)
    ensures EnqueueEach(m, booking, start, [offset], now, q.added, q.faults) ==
            (EnqueueOne(m, ReminderId(booking, offset), start, now, q.added, q.faults),
             !TurnFails(m, ReminderId(booking, offset), start, now, q.faults))
  {
    EnqueueSingle(m, ReminderId(booking, offset), start, now, q.added, q.faults);
  }

  /** Exactly then the work after a commit fails. */
  lemma WorkFailsExactly(rows: Reminders, jobs: Jobs, booking: Uuid, start: int, now: int, q: QueueWork)
    ensures !Enqueued(rows, jobs, booking, start, now, q).1 <==> WorkThrows(rows, booking, start, now, q)
  {
    var m, long, short := Reminding(rows, jobs), ReminderId(booking, 1440), ReminderId(booking, 60);
    var offsets := NewOffsets(rows, booking);
    if IsScheduled(rows, long) {
      OneTurn(m, booking, start, 1440, now, q);
      if IsScheduled(rows, short) {
        assert offsets == [1440, 60] && offsets[..1] == [1440];
      } else {
        assert offsets == [1440];
      }
    } else if IsScheduled(rows, short) {
      OneTurn(m, booking, start, 60, now, q);
      assert offsets == [60];
    }
    assert WorkThrows(rows, booking, start, now, q) <==>
           q.readsFail || (IsScheduled(rows, long) && TurnFails(m, long, start, now, q.faults)) ||
           (IsScheduled(rows, short) && TurnFails(m, short, start, now, q.faults));
  }

  /** When nothing throws, every scheduled reminder of the booking still to come has its job. */
  lemma WorkEnqueuesAll(rows: Reminders, jobs: Jobs, booking: Uuid, start: int, now: int, q: QueueWork, offset: int)
    requires offset in {1440, 60} && !q.readsFail && q.faults == NO_FAULTS
    requires ReminderId(booking, offset) in rows && rows[ReminderId(booking, offset)].status == Scheduled
    requires start - offset * 60 * 1000 > now
    ensures JobText(ReminderId(booking, offset)) in Enqueued(rows, jobs, booking, start, now, q).0.jobs
  {
    var m, long, short := Reminding(rows, jobs), ReminderId(booking, 1440), ReminderId(booking, 60);
    var offsets := NewOffsets(rows, booking);
    if IsScheduled(rows, long) {
      OneTurn(m, booking, start, 1440, now, q);
      if IsScheduled(rows, short) {
        assert offsets == [1440, 60] && offsets[..1] == [1440];
      } else {
        assert offsets == [1440];
      }
    } else {
      OneTurn(m, booking, start, 60, now, q);
      assert offsets == [60];
    }
  }

  /** Such a create: one open slot two days ahead, and a queue that is down. */
  lemma CommittedYetRefused()
    ensures var slot, id := Uuid("slot"), Uuid("booking");
            var open := Slot(Uuid("provider"), 48 * MS_PER_HOUR, 49 * MS_PER_HOUR, SlotOpen);
            var db := Db(map[slot := open], map[], map[], map[]);
            var c := CreateCall(CreateRequest(slot, Uuid("client"), None, "UTC"), 0, 4, 0, 0, id);
            var q := QueueWork(0, 0, false, Faults({}, {ReminderId(id, 1440), ReminderId(id, 60)}), {});
            Create(db, c).1 == Created(id) &&
            !Enqueued(Create(db, c).0.reminders, map[], id, 48 * MS_PER_HOUR, 0, q).1
  {
    var slot, id := Uuid("slot"), Uuid("booking");
    var open := Slot(Uuid("provider"), 48 * MS_PER_HOUR, 49 * MS_PER_HOUR, SlotOpen);
    var db := Db(map[slot := open], map[], map[], map[]);
    var c := CreateCall(CreateRequest(slot, Uuid("client"), None, "UTC"), 0, 4, 0, 0, id);
    var q := QueueWork(0, 0, false, Faults({}, {ReminderId(id, 1440), ReminderId(id, 60)}), {});
    assert Create(db, c).1 == Created(id);
    var rows := Create(db, c).0.reminders;
    assert IsScheduled(rows, ReminderId(id, 60)) && FireTime(48 * MS_PER_HOUR, 60) > 0;
    assert WorkThrows(rows, id, 48 * MS_PER_HOUR, 0, q);
    WorkFailsExactly(rows, map[], id, 48 * MS_PER_HOUR, 0, q);
  }

  class BookingService {
    const db: Database
    const queue: ReminderQueueManager

    constructor (queue: ReminderQueueManager)
      ensures this.queue == queue && this.db == queue.db
    {
      this.queue := queue;
      this.db := queue.db;
    }

    ghost predicate Valid() {
      db == queue.db
    }

    /** The loop that inserts the reminder rows; `ok` is false at the first unique violation. */
    method InsertReminders(booking: Uuid, start: int, clock1440: int, clock60: int) returns (ok: bool)
      modifies db`reminders
      ensures ok <==> !old(ReminderClash(db.reminders, booking, 1440, start, clock1440)) &&
                      !old(ReminderClash(db.reminders, booking, 60, start, clock60))
      ensures ok ==>
                db.reminders == AddReminder(AddReminder(old(db.reminders), booking, 1440, start, clock1440),
                                            booking, 60, start, clock60)
    {
      var offsets, clocks := [1440, 60], [clock1440, clock60];
      for i := 0 to |offsets|
        invariant i == 0 ==> db.reminders == old(db.reminders)
        invariant i >= 1 ==> !old(ReminderClash(db.reminders, booking, 1440, start, clock1440))
        invariant i == 1 ==> db.reminders == AddReminder(old(db.reminders), booking, 1440, start, clock1440)
        invariant i == 2 ==> !old(ReminderClash(db.reminders, booking, 60, start, clock60)) &&
                             db.reminders ==
                                 AddReminder(AddReminder(old(db.reminders), booking, 1440, start, clock1440),
                                             booking, 60, start, clock60)
      {
        var fire := start - offsets[i] * 60000;
        if fire > clocks[i] {
          var id := ReminderId(booking, offsets[i]);
          if id in db.reminders {
            return false;
          }
          db.reminders := db.reminders[id := Reminder(fire, Scheduled, 0, None)];
        }
      }
      ok := true;
    }

    /** The transaction of `createBooking`, after its pre-check. */
    method CreateTransaction(c: Call) returns (reply: Reply)
      requires c.CreateCall? && c.WellFormed() && CreatePrecheck(db.Contents(), c.create).None?
      modifies db
      ensures (db.Contents(), reply) == old(Create(db.Contents(), c))
    {
      var r := c.create;
      var before := db.Contents();
      if !(r.slotId in db.slots && db.slots[r.slotId].status == SlotOpen &&
           db.slots[r.slotId].start >= c.now && db.slots[r.slotId].start >= c.now + c.notice * MS_PER_HOUR)
      {
        return Rejected(SlotUnavailable);
      }
      var start := db.slots[r.slotId].start;
      db.slots := db.slots[r.slotId := db.slots[r.slotId].(status := SlotBooked)];
      if c.newId in db.bookings || HasLive(db.bookings, r.slotId) {
        db.Rollback(before);
        return Rejected(SlotUnavailable);
      }
      db.bookings := db.bookings[c.newId := Booking(r.slotId, r.clientId, r.timezone, Booked, 1)];
      var ok := InsertReminders(c.newId, start, c.clock1440, c.clock60);
      if !ok {
        db.Rollback(before);
        return Rejected(SlotUnavailable);
      }
      if HasKey(r.createKey) {
        db.keys := db.keys[CreateKeyId(r) := KeyRow(r, c.newId)];
      }
      reply := Created(c.newId);
    }

    /** `createBooking`: anything that throws after the commit turns a committed booking into an error
        answer; no other error answer leaves a change behind. */
    method CreateBooking(c: Call, q: QueueWork) returns (reply: Reply)
      requires Valid() && c.CreateCall? && c.WellFormed()
      modifies db, queue`jobs
      ensures var r := old(Create(db.Contents(), c));
              if !r.1.Created? then db.Contents() == old(db.Contents()) && queue.jobs == old(queue.jobs) && reply == r.1
              else
                var e := Enqueued(r.0.reminders, old(queue.jobs), c.newId, r.0.slots[c.create.slotId].start, c.now, q);
                db.Contents() == r.0.(reminders := e.0.rows) && queue.jobs == e.0.jobs &&
                reply == if e.1 then r.1 else Rejected(FailedAfterCommit)
      ensures var r := old(Create(db.Contents(), c));
              reply.Rejected? && db.Contents() != old(db.Contents()) <==>
              r.1.Created? &&
              WorkThrows(r.0.reminders, c.newId, r.0.slots[c.create.slotId].start, c.now, q)
    {
      var early := CreatePrecheck(db.Contents(), c.create);
      if early.Some? {
        return early.value;
      }
      reply := CreateTransaction(c);
      if reply.Created? {
        WorkFailsExactly(db.reminders, queue.jobs, c.newId, db.slots[c.create.slotId].start, c.now, q);
        var ok := false;
        if !q.readsFail {
          ok := queue.EnqueueForBooking(c.newId, db.slots[c.create.slotId].start, NewOffsets(db.reminders, c.newId),
                                        c.now, q.added, q.faults);
        }
        if !ok {
          reply := Rejected(FailedAfterCommit);
        }
      }
    }

    /** The second transaction of `rescheduleBooking`. */
    method RescheduleTransaction(c: Call) returns (reply: Reply)
      requires c.RescheduleCall? && c.WellFormed()
      requires MoveGuard(db.Contents(), c.move).None? && !MoveTooLate(db.Contents(), c)
      modifies db
      ensures (db.Contents(), reply) == old(Reschedule(db.Contents(), c))
    {
      var r := c.move;
      var before := db.Contents();
      var prev := db.bookings[r.bookingId];
      if !(r.newSlotId in db.slots && db.slots[r.newSlotId].status == SlotOpen && db.slots[r.newSlotId].start > c.now) {
        return Rejected(SlotUnavailable);
      }
      var start := db.slots[r.newSlotId].start;
      db.slots := db.slots[r.newSlotId := db.slots[r.newSlotId].(status := SlotBooked)];
      db.bookings := db.bookings[r.bookingId := prev.(status := Cancelled)];
      if prev.slot in db.slots {
        db.slots := db.slots[prev.slot := db.slots[prev.slot].(status := SlotOpen)];
      }
      if c.newId in db.bookings || HasLive(db.bookings, r.newSlotId) {
        db.Rollback(before);
        return Rejected(SlotUnavailable);
      }
      var zone := if prev.timezone == "" then "UTC" else prev.timezone;
      db.bookings := db.bookings[c.newId := Booking(r.newSlotId, prev.client, zone, Booked, prev.version + 1)];
      db.reminders := CancelRows(db.reminders, r.bookingId);
      var ok := InsertReminders(c.newId, start, c.now, c.now);
      if !ok || (HasKey(r.moveKey) && KeyId(prev.client, r.moveKey.value) in db.keys) {
        db.Rollback(before);
        return Rejected(SlotUnavailable);
      }
      if HasKey(r.moveKey) {
        db.keys := db.keys[KeyId(prev.client, r.moveKey.value) := KeyRow(r, c.newId)];
      }
      reply := Created(c.newId);
    }

    /** `rescheduleBooking`: failures after the commit are swallowed.  Its clean-up finds no active
        row of the old booking, so no job leaves the queue. */
    method RescheduleBooking(c: Call, q: QueueWork) returns (reply: Reply)
      requires Valid() && c.RescheduleCall? && c.WellFormed()
      requires forall r | r in db.reminders :: r.booking in db.bookings
      modifies db, queue`jobs
      ensures reply == old(Reschedule(db.Contents(), c)).1
      ensures forall k | k in old(queue.jobs) :: k in queue.jobs && queue.jobs[k] == old(queue.jobs[k])
      ensures var r := old(Reschedule(db.Contents(), c));
              if !r.1.Created? then db.Contents() == old(db.Contents()) && queue.jobs == old(queue.jobs)
              else
                var m := Enqueued(r.0.reminders, old(queue.jobs), c.newId, r.0.slots[c.move.newSlotId].start, q.now,
                                  q).0;
                db.Contents() == r.0.(reminders := m.rows) && queue.jobs == m.jobs
    {
      var guard := MoveGuard(db.Contents(), c.move);
      if guard.Some? {
        return Rejected(guard.value);
      }
      if MoveTooLate(db.Contents(), c) {
        return Rejected(WindowExpired);
      }
      ghost var before := db.Contents();
      reply := RescheduleTransaction(c);
      if reply.Created? {
        MoveLeavesJobs(before, c, queue.jobs, q.stuck);
        queue.CancelForBooking(c.move.bookingId, [], q.stuck);
        var start := db.slots[c.move.newSlotId].start;
        var offsets := NewOffsets(db.reminders, c.newId);
        EnqueueKeepsJobs(queue.State(), c.newId, start, offsets, q);
        if !q.readsFail {
          var _ := queue.EnqueueForBooking(c.newId, start, offsets, q.now, q.added, q.faults);
        }
      }
    }

    /** `confirmBooking`. */
    method ConfirmBooking(id: Uuid, client: Uuid) returns (reply: Reply)
      modifies db`bookings
      ensures (db.Contents(), reply) == old(Decide(db.Contents(), id, client, Completed))
    {
      reply := Decision(id, client, Completed);
    }

    /** The locked read, the two checks and the update that confirm and decline share. */
    method Decision(id: Uuid, client: Uuid, to: BookingStatus) returns (reply: Reply)
      modifies db`bookings
      ensures (db.Contents(), reply) == old(Decide(db.Contents(), id, client, to))
    {
      if id !in db.bookings {
        return Rejected(NotFound);
      }
      var b := db.bookings[id];
      if b.client != client {
        return Rejected(Forbidden);
      }
      if b.status != Booked {
        return Rejected(InvalidTransition);
      }
      db.bookings := db.bookings[id := b.(status := to, version := b.version + 1)];
      reply := Updated(b.version + 1);
    }

    /** `declineBooking`: the slot stays booked, the reminders are withdrawn.
        `active` is the answer of the clean-up's query. */
    method DeclineBooking(id: Uuid, client: Uuid, active: seq<ReminderId>, q: QueueWork) returns (reply: Reply)
      requires Valid() && ListsActive(db.reminders, id, active)
      modifies db`bookings, db`reminders, queue`jobs
      ensures var r := old(Decide(db.Contents(), id, client, Cancelled));
              reply == r.1 &&
              if !r.1.Updated? then db.Contents() == old(db.Contents()) && queue.jobs == old(queue.jobs)
              else db.Contents() == r.0.(reminders := WithdrawRows(old(db.reminders), id)) &&
                   queue.jobs == WithdrawJobs(old(db.reminders), old(queue.jobs), id, q.stuck)
    {
      reply := Decision(id, client, Cancelled);
      if reply.Updated? {
        queue.CancelForBooking(id, active, q.stuck);
      }
    }

    /** `updateStatus`. */
    method UpdateStatus(id: Uuid, client: Uuid, to: string, active: seq<ReminderId>, q: QueueWork)
        returns (reply: Reply)
      requires Valid() && ListsActive(db.reminders, id, active)
      modifies db`bookings, db`reminders, queue`jobs
      ensures var r := old(Patch(db.Contents(), id, client, to));
              reply == r.1 &&
              if r.1.Updated? && to == "cancelled"
              then db.Contents() == r.0.(reminders := WithdrawRows(old(db.reminders), id)) &&
                   queue.jobs == WithdrawJobs(old(db.reminders), old(queue.jobs), id, q.stuck)
              else db.Contents() == r.0 && queue.jobs == old(queue.jobs)
    {
      if id !in db.bookings {
        return Rejected(NotFound);
      }
      var b := db.bookings[id];
      if b.client != client {
        return Rejected(Forbidden);
      }
      if to !in ["confirmed", "declined", "completed", "cancelled", "booked"] {
        return Rejected(InvalidStatus);
      }
      var stored := StoredStatus(to);
      if stored.None? || RevivalClash(db.bookings, id, stored.value) {
        return Rejected(ConstraintViolation);
      }
      db.bookings := db.bookings[id := b.(status := stored.value, version := b.version + 1)];
      if to == "cancelled" {
        queue.CancelForBooking(id, active, q.stuck);
      }
      reply := Updated(b.version + 1);
    }

    /** `cancelBooking`.  Its clean-up is given an id the query did not fetch, so it matches no row:
        reminders and jobs stay as they are. */
    method CancelBooking(c: Call) returns (reply: Reply)
      requires c.CancelCall?
      modifies db`bookings, db`slots
      ensures (db.Contents(), reply) == old(Cancel(db.Contents(), c))
    {
      var guard := CancelGuard(db.Contents(), c);
      if guard.Some? {
        return Rejected(guard.value);
      }
      var slot := db.bookings[c.id].slot;
      db.bookings := db.bookings[c.id := db.bookings[c.id].(status := Cancelled)];
      if slot in db.slots {
        db.slots := db.slots[slot := db.slots[slot].(status := SlotOpen)];
      }
      reply := NoContent;
    }

    /** `LifecycleService.transition`: a missing slot aborts the whole transaction. */
    method Transit(id: Uuid, to: BookingStatus, expected: Option<int>) returns (reply: Reply)
      modifies db
      ensures (db.Contents(), reply) == old(Transition(db.Contents(), id, to, expected))
    {
      if id !in db.bookings {
        return Rejected(NotFound);
      }
      var b, before := db.bookings[id], db.Contents();
      if expected.Some? && b.version != expected.value {
        return Rejected(VersionMismatch);
      }
      if !BookingRules.LifecycleAllows(b.status, to) {
        return Rejected(InvalidTransition);
      }
      db.bookings := db.bookings[id := b.(status := to, version := b.version + 1)];
      if to == Cancelled {
        if b.slot !in db.slots {
          db.Rollback(before);
          return Rejected(NotFound);
        }
        db.slots := db.slots[b.slot := db.slots[b.slot].(status := SlotOpen)];
      }
      reply := Updated(b.version + 1);
    }

    /** `LifecycleService.cancel`. */
    method CancelWithin(id: Uuid, window: int, now: int) returns (reply: Reply)
      modifies db`bookings, db`slots
      ensures (db.Contents(), reply) == old(LifecycleCancel(db.Contents(), id, window, now))
    {
      if id !in db.bookings {
        return Rejected(NotFound);
      }
      var b := db.bookings[id];
      if b.status != Booked {
        return Rejected(InvalidTransition);
      }
      if b.slot !in db.slots {
        return Rejected(NotFound);
      }
      var remaining := db.slots[b.slot].start - now;
      if remaining < window * 60 * 60 * 1000 {
        return Rejected(WindowExpired);
      }
      db.bookings := db.bookings[id := b.(status := Cancelled, version := b.version + 1)];
      db.slots := db.slots[b.slot := db.slots[b.slot].(status := SlotOpen)];
      reply := Updated(b.version + 1);
    }
  }

  /** Enqueueing never drops or alters a job. */
  lemma {:induction false} EnqueueKeepsJobs(m: Reminding, booking: Uuid, start: int, offsets: seq<int>, q: QueueWork)
    ensures forall k | k in m.jobs ::
              k in EnqueueEach(m, booking, start, offsets, q.now, q.added, q.faults).0.jobs &&
              EnqueueEach(m, booking, start, offsets, q.now, q.added, q.faults).0.jobs[k] == m.jobs[k]
  {
    if offsets != [] {
      EnqueueKeepsJobs(m, booking, start, offsets[..|offsets| - 1], q);
    }
  }
}
