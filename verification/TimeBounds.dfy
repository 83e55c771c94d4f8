/** When slots may be taken and freed, and which reminder rows a booking gets. */
module TimeBounds {
  import opened Tables
  import opened Requests
  import opened SlotExclusivity
  import T = Transactions
  import Interleaving

  /** A slot that goes from booked to open was freed by one of four requests, and the three that
      test a window do so no later than the slot's start minus the window they were given. */
  lemma FreedOnlyInsideWindow(db: Db, c: Call, s: Uuid)
    requires Exclusive(db) && Guarded(c)
    requires s in db.slots && db.slots[s].status == SlotBooked
    requires s in Apply(db, c).0.slots && Apply(db, c).0.slots[s].status == SlotOpen
    ensures c.RescheduleCall? || c.CancelCall? || c.LifecycleCancelCall? || (c.TransitionCall? && c.target == Cancelled)
    ensures c.CancelCall? || c.LifecycleCancelCall? ==> c.now + c.window * 60 * 60 * 1000 <= db.slots[s].start
    ensures c.RescheduleCall? ==>
              var hours := if c.move.window.Some? then c.move.window.value else 24;
              c.now + hours * 60 * 60 * 1000 <= db.slots[s].start
  {
  }

  /** Every create is at least its notice, and at least zero, ahead of the request's clock. */
  lemma CreateKeepsNotice(db: Db, c: Call)
    requires c.CreateCall? && c.WellFormed() && Create(db, c).1.Created?
    ensures c.create.slotId in db.slots
    ensures db.slots[c.create.slotId].start >= c.now + (if c.notice > 0 then c.notice else 0) * MS_PER_HOUR
  {
  }

  /** With a provider whose stored notice is one of the values the settings endpoint
      accepts, or none, the notice in force is 4, 24 or 48. */
  lemma NoticeValues(stored: Option<int>)
    requires stored.Some? ==> stored.value in {0, 4, 24, 48}
    ensures ResolveNotice(stored) in {4, 24, 48}
    ensures ResolveNotice(stored) == 4 <==> stored == None || stored == Some(0) || stored == Some(4)
  {
  }

  /** Which reminder rows a successful create inserts. */
  lemma CreateReminderRows(db: Db, c: Call)
    requires c.CreateCall? && c.WellFormed() && Create(db, c).1.Created?
    requires forall r | r in db.reminders :: r.booking in db.bookings
    ensures var start, rows := db.slots[c.create.slotId].start, Create(db, c).0.reminders;
            (ReminderId(c.newId, 60) in rows <==> start - c.clock60 > 60 * MS_PER_MINUTE) &&
            (ReminderId(c.newId, 1440) in rows <==> start - c.clock1440 > 24 * MS_PER_HOUR) &&
            forall r | r in rows && r.booking == c.newId ::
              r.offset in {60, 1440} && rows[r] == Reminder(start - r.offset * MS_PER_MINUTE, Scheduled, 0, None)
  {
  }

  /** Whatever notice the settings accept, or none: a create whose insert runs less than three hours after its
      compare-and-set clock always gets the 60-minute reminder; with notice 48 (and less than a day's delay) it
      also gets the 24-hour one. */
  lemma NoticeSecuresReminder(db: Db, c: Call, stored: Option<int>)
    requires c.CreateCall? && c.WellFormed() && Create(db, c).1.Created?
    requires c.notice == ResolveNotice(stored) && (stored.Some? ==> stored.value in {0, 4, 24, 48})
    requires forall r | r in db.reminders :: r.booking in db.bookings
    ensures c.clock60 < c.now + 3 * MS_PER_HOUR ==> ReminderId(c.newId, 60) in Create(db, c).0.reminders
    ensures stored == Some(48) && c.clock1440 < c.now + 24 * MS_PER_HOUR ==>
            ReminderId(c.newId, 1440) in Create(db, c).0.reminders
  {
    NoticeValues(stored);
    CreateKeepsNotice(db, c);
    CreateReminderRows(db, c);
  }

  /** A reschedule has no notice: it admits any slot that has not begun, so its reminders may all be missing. */
  lemma RescheduleReminderRows(db: Db, c: Call)
    requires c.RescheduleCall? && c.WellFormed() && Reschedule(db, c).1.Created?
    requires forall r | r in db.reminders :: r.booking in db.bookings
    ensures var start, rows := db.slots[c.move.newSlotId].start, Reschedule(db, c).0.reminders;
            start > c.now &&
            (forall offset :: ReminderId(c.newId, offset) in rows <==>
              offset in {60, 1440} && start - c.now > offset * MS_PER_MINUTE) &&
            forall r | r in db.reminders && r.booking == c.move.bookingId ::
              r in rows && rows[r] == db.reminders[r].(status := ReminderCancelled)
  {
  }

  /** The row fires its offset before the start of the slot of its booking. */
  ghost predicate FiresRight(db: Db, r: ReminderId)
    requires r in db.reminders
  {
    r.booking in db.bookings && db.bookings[r.booking].slot in db.slots &&
    db.reminders[r].fireAt == FireTime(db.slots[db.bookings[r.booking].slot].start, r.offset)
  }

  ghost predicate FireTimesRight(db: Db) {
    forall r | r in db.reminders :: FiresRight(db, r)
  }

  lemma CreateFireTimes(db: Db, c: Call)
    requires FireTimesRight(db) && c.CreateCall? && c.WellFormed()
    ensures FireTimesRight(Create(db, c).0)
  {
    var db' := Create(db, c).0;
    forall r | r in db'.reminders ensures FiresRight(db', r) {
      assert r in db.reminders ==> FiresRight(db, r);
    }
  }

  /** A reschedule keeps the slot of every other booking and the start of every slot. */
  lemma MoveKeepsPlaces(db: Db, c: Call, b: Uuid)
    requires c.RescheduleCall? && c.WellFormed() && Reschedule(db, c).1.Created?
    requires b in db.bookings && db.bookings[b].slot in db.slots
    ensures var db' := Reschedule(db, c).0;
            b in db'.bookings && db'.bookings[b].slot == db.bookings[b].slot &&
            db.bookings[b].slot in db'.slots &&
                db'.slots[db.bookings[b].slot].start == db.slots[db.bookings[b].slot].start
  {
  }

  lemma MoveRows(db: Db, c: Call, r: ReminderId)
    requires c.RescheduleCall? && c.WellFormed() && Reschedule(db, c).1.Created? && r in Reschedule(db, c).0.reminders
    ensures c.move.newSlotId in db.slots
    ensures var row := Reschedule(db, c).0.reminders[r];
            if r in db.reminders then row.fireAt == db.reminders[r].fireAt
            else r.booking == c.newId && row.fireAt == FireTime(db.slots[c.move.newSlotId].start, r.offset)
  {
  }

  lemma MoveNewPlace(db: Db, c: Call)
    requires c.RescheduleCall? && c.WellFormed() && Reschedule(db, c).1.Created?
    ensures var db' := Reschedule(db, c).0;
            c.newId in db'.bookings && db'.bookings[c.newId].slot == c.move.newSlotId &&
            c.move.newSlotId in db.slots && c.move.newSlotId in db'.slots &&
            db'.slots[c.move.newSlotId].start == db.slots[c.move.newSlotId].start
  {
  }

  lemma RescheduleFireTimes(db: Db, c: Call)
    requires FireTimesRight(db) && c.RescheduleCall? && c.WellFormed()
    ensures FireTimesRight(Reschedule(db, c).0)
  {
    if Reschedule(db, c).1.Created? {
      var db' := Reschedule(db, c).0;
      MoveNewPlace(db, c);
      forall r | r in db'.reminders ensures FiresRight(db', r) {
        MoveRows(db, c, r);
        if r in db.reminders {
          assert FiresRight(db, r);
          MoveKeepsPlaces(db, c, r.booking);
        }
      }
    }
  }

  /** Every request, guarded or not, keeps the fire times right. */
  lemma ApplyFireTimes(db: Db, c: Call)
    requires FireTimesRight(db) && c.WellFormed()
    ensures FireTimesRight(Apply(db, c).0)
  {
    match c
    case CreateCall(_, _, _, _, _, _) => CreateFireTimes(db, c);
    case RescheduleCall(_, _, _) => RescheduleFireTimes(db, c);
    case _ =>
  }

  lemma {:induction false} SerialFireTimes(db: Db, calls: seq<Call>)
    requires FireTimesRight(db) && AllWellFormed(calls)
    ensures FireTimesRight(Serial(db, calls))
  {
    if calls != [] {
      SerialFireTimes(db, calls[..|calls| - 1]);
      ApplyFireTimes(Serial(db, calls[..|calls| - 1]), calls[|calls| - 1]);
    }
  }

  /** And over every interleaving, PATCH status and the writes of cancel included. */
  lemma FireTimesInterleaved(db: Db, actions: seq<Interleaving.Action>)
    requires FireTimesRight(db) && Interleaving.Run(T.Next, Interleaving.Initial(db), actions).Some?
    ensures FireTimesRight(Interleaving.Run(T.Next, Interleaving.Initial(db), actions).value.db)
  {
    Interleaving.Serialisable(db, actions);
    SerialFireTimes(db, Interleaving.Run(T.Next, Interleaving.Initial(db), actions).value.log);
  }
}
