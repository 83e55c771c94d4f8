/** Counting slots and live bookings over runs of atomic requests. */
module Conservation {
  import opened Tables
  import opened Requests
  import opened SlotExclusivity
  import T = Transactions
  import Interleaving

  function SlotsWith(db: Db, status: SlotStatus): set<Uuid> {
    set s | s in db.slots && db.slots[s].status == status
  }

  function LiveBookings(db: Db): set<Uuid> {
    set b | b in db.bookings && db.bookings[b].Live()
  }

  /** Booked slots that no live booking accounts for. */
  function Surplus(db: Db): int {
    |SlotsWith(db, SlotBooked)| - |LiveBookings(db)|
  }

  predicate Declines(db: Db, c: Call)
    requires c.WellFormed()
  {
    c.DeclineCall? && Apply(db, c).1.Updated?
  }

  lemma BookedGains(db: Db, db': Db, s: Uuid)
    requires s in db.slots && db.slots[s].status == SlotOpen && db'.slots == BookSlot(db.slots, s)
    ensures SlotsWith(db', SlotBooked) == SlotsWith(db, SlotBooked) + {s} && s !in SlotsWith(db, SlotBooked)
  {
  }

  lemma LiveGains(db: Db, db': Db, b: Uuid, row: Booking)
    requires b !in db.bookings && row.Live() && db'.bookings == db.bookings[b := row]
    ensures LiveBookings(db') == LiveBookings(db) + {b} && b !in LiveBookings(db)
  {
  }

  /** A create adds its slot to the booked ones and its booking to the live ones. */
  lemma CreateCounts(db: Db, c: Call)
    requires Exclusive(db) && c.CreateCall? && c.WellFormed() && Create(db, c).1.Created?
    ensures SlotsWith(Create(db, c).0, SlotBooked) == SlotsWith(db, SlotBooked) + {c.create.slotId}
    ensures LiveBookings(Create(db, c).0) == LiveBookings(db) + {c.newId}
    ensures Surplus(Create(db, c).0) == Surplus(db)
  {
    var r, db' := c.create, Create(db, c).0;
    BookedGains(db, db', r.slotId);
    LiveGains(db, db', c.newId, Booking(r.slotId, r.clientId, r.timezone, Booked, 1));
  }

  /** Slot `s` is booked and slot `gone`, another one, opened. */
  lemma SlotsSwap(db: Db, db': Db, s: Uuid, gone: Uuid)
    requires s in db.slots && db.slots[s].status == SlotOpen && gone in db.slots && db.slots[gone].status == SlotBooked
    requires db'.slots == FreeSlot(BookSlot(db.slots, s), gone)
    ensures |SlotsWith(db', SlotOpen)| == |SlotsWith(db, SlotOpen)|
    ensures |SlotsWith(db', SlotBooked)| == |SlotsWith(db, SlotBooked)|
  {
    assert SlotsWith(db', SlotOpen) == SlotsWith(db, SlotOpen) - {s} + {gone};
    assert SlotsWith(db', SlotBooked) == SlotsWith(db, SlotBooked) + {s} - {gone};
  }

  /** Live booking `gone` is cancelled and live booking `b` inserted. */
  lemma LiveSwap(db: Db, db': Db, b: Uuid, row: Booking, gone: Uuid)
    requires b !in db.bookings && row.Live() && gone in db.bookings && db.bookings[gone].Live()
    requires db'.bookings == CancelBookingRow(db.bookings, gone)[b := row]
    ensures |LiveBookings(db')| == |LiveBookings(db)|
  {
    assert LiveBookings(db') == LiveBookings(db) - {gone} + {b};
  }

  /** A reschedule swaps one booked slot for another and one live booking for another. */
  lemma RescheduleCounts(db: Db, c: Call)
    requires Exclusive(db) && c.RescheduleCall? && c.WellFormed() && Reschedule(db, c).1.Created?
    ensures Surplus(Reschedule(db, c).0) == Surplus(db)
    ensures |SlotsWith(Reschedule(db, c).0, SlotOpen)| == |SlotsWith(db, SlotOpen)|
    ensures |SlotsWith(Reschedule(db, c).0, SlotBooked)| == |SlotsWith(db, SlotBooked)|
    ensures |LiveBookings(Reschedule(db, c).0)| == |LiveBookings(db)|
  {
    var db', r := Reschedule(db, c).0, c.move;
    var prev := db.bookings[r.bookingId];
    SlotsSwap(db, db', r.newSlotId, prev.slot);
    LiveSwap(db, db', c.newId, MovedBooking(prev, r.newSlotId), r.bookingId);
  }

  /** A live booking becomes cancelled and its slot is opened. */
  lemma FreeCounts(db: Db, db': Db, b: Uuid)
    requires Exclusive(db) && b in db.bookings && db.bookings[b].Live()
    requires db'.slots == FreeSlot(db.slots, db.bookings[b].slot)
    requires db'.bookings.Keys == db.bookings.Keys && db'.bookings[b].status == Cancelled
    requires forall k | k in db.bookings && k != b :: db'.bookings[k] == db.bookings[k]
    ensures Surplus(db') == Surplus(db)
  {
    assert SlotsWith(db', SlotBooked) == SlotsWith(db, SlotBooked) - {db.bookings[b].slot};
    assert LiveBookings(db') == LiveBookings(db) - {b};
  }

  /** A booking changes status and its slot stays as it is. */
  lemma StatusCounts(db: Db, b: Uuid, to: BookingStatus)
    requires b in db.bookings && db.bookings[b].Live()
    ensures Surplus(SetStatus(db, b, to)) == Surplus(db) + if to == Cancelled then 1 else 0
  {
    var db' := SetStatus(db, b, to);
    assert SlotsWith(db', SlotBooked) == SlotsWith(db, SlotBooked);
    assert LiveBookings(db') == if to == Cancelled then LiveBookings(db) - {b} else LiveBookings(db);
  }

  /** Only a decline leaves a booked slot without a live booking. */
  lemma StepSurplus(db: Db, c: Call)
    requires Exclusive(db) && Guarded(c)
    ensures Surplus(Apply(db, c).0) == Surplus(db) + if Declines(db, c) then 1 else 0
  {
    if !Apply(db, c).1.Rejected? && !Apply(db, c).1.Replayed? {
      match c
      case CreateCall(_, _, _, _, _, _) => CreateCounts(db, c);
      case RescheduleCall(_, _, _) => RescheduleCounts(db, c);
      case ConfirmCall(id, _) => StatusCounts(db, id, Completed);
      case DeclineCall(id, _) => StatusCounts(db, id, Cancelled);
      case CancelCall(id, _, _, _, _) => FreeCounts(db, Apply(db, c).0, id);
      case TransitionCall(id, to, _) =>
        if to == Cancelled { FreeCounts(db, Apply(db, c).0, id); } else { StatusCounts(db, id, to); }
      case LifecycleCancelCall(id, _, _) => FreeCounts(db, Apply(db, c).0, id);
      case PatchCall(_, _, _) =>
      case CancelWrites(_, _) =>
    }
  }

  function DeclineCount(db: Db, calls: seq<Call>): nat
    requires AllWellFormed(calls)
  {
    if calls == [] then 0
    else
      var before := calls[..|calls| - 1];
      DeclineCount(db, before) + if Declines(Serial(db, before), calls[|calls| - 1]) then 1 else 0
  }

  /** Conservation: from tables in which booked slots and live bookings balance, the
      booked slots are always the live bookings plus the decline steps taken. */
  lemma {:induction false} BookedSlotsConserved(db: Db, calls: seq<Call>)
    requires Exclusive(db) && AllGuarded(calls)
    ensures AllWellFormed(calls)
    ensures |SlotsWith(Serial(db, calls), SlotBooked)| - |LiveBookings(Serial(db, calls))| ==
            |SlotsWith(db, SlotBooked)| - |LiveBookings(db)| + DeclineCount(db, calls)
  {
    if calls != [] {
      var before := calls[..|calls| - 1];
      BookedSlotsConserved(db, before);
      NoDoubleBooking(db, before);
      StepSurplus(Serial(db, before), calls[|calls| - 1]);
    }
  }

  lemma StepBlocked(db: Db, c: Call)
    requires Exclusive(db) && Guarded(c)
    ensures SlotsWith(Apply(db, c).0, SlotBlocked) == SlotsWith(db, SlotBlocked)
  {
    var db' := Apply(db, c).0;
    assert db'.slots.Keys == db.slots.Keys;
    forall s | s in db.slots
      ensures db'.slots[s].status == SlotBlocked <==> db.slots[s].status == SlotBlocked
    {
    }
  }

  /** A blocked slot never becomes bookable, and none of these requests blocks one. */
  lemma {:induction false} BlockedStaysBlocked(db: Db, calls: seq<Call>)
    requires Exclusive(db) && AllGuarded(calls)
    ensures AllWellFormed(calls)
    ensures SlotsWith(Serial(db, calls), SlotBlocked) == SlotsWith(db, SlotBlocked)
  {
    if calls != [] {
      var before := calls[..|calls| - 1];
      BlockedStaysBlocked(db, before);
      NoDoubleBooking(db, before);
      StepBlocked(Serial(db, before), calls[|calls| - 1]);
    }
  }

  /** Both over every interleaving of create, reschedule, confirm and decline: the declines are those that committed. */
  lemma ConservedInterleaved(db: Db, actions: seq<Interleaving.Action>)
    requires Exclusive(db) && AllLocking(actions)
    requires Interleaving.Run(T.Next, Interleaving.Initial(db), actions).Some?
    ensures var s := Interleaving.Run(T.Next, Interleaving.Initial(db), actions).value;
            AllWellFormed(s.log) &&
            |SlotsWith(s.db, SlotBooked)| - |LiveBookings(s.db)| ==
            |SlotsWith(db, SlotBooked)| - |LiveBookings(db)| + DeclineCount(db, s.log) &&
            SlotsWith(s.db, SlotBlocked) == SlotsWith(db, SlotBlocked)
  {
    Interleaving.Serialisable(db, actions);
    RunLocking(db, actions);
    var log := Interleaving.Run(T.Next, Interleaving.Initial(db), actions).value.log;
    BookedSlotsConserved(db, log);
    BlockedStaysBlocked(db, log);
  }
}
