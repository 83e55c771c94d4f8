/** No double booking: what the compare-and-set and the status guards keep in every
    reachable state, and what is left to the partial unique index. */
module SlotExclusivity {
  import opened Tables
  import opened Requests
  import T = Transactions
  import Interleaving

  /** At most one live booking per slot. */
  ghost predicate OneLive(db: Db) {
    forall b, b' | b in db.bookings && b' in db.bookings && b != b' ::
      db.bookings[b].Live() && db.bookings[b'].Live() ==> db.bookings[b].slot != db.bookings[b'].slot
  }

  /** The slot of a live booking is marked booked: it is neither open nor blocked. */
  ghost predicate LiveMarked(db: Db) {
    forall b | b in db.bookings && db.bookings[b].Live() ::
      db.bookings[b].slot in db.slots && db.slots[db.bookings[b].slot].status == SlotBooked
  }

  ghost predicate Exclusive(db: Db) {
    OneLive(db) && LiveMarked(db)
  }

  /** Requests that test the state they change inside one atomic step. */
  predicate Guarded(c: Call) {
    c.WellFormed() && !c.PatchCall? && !c.CancelWrites?
  }

  predicate AllGuarded(calls: seq<Call>) {
    forall i | 0 <= i < |calls| :: Guarded(calls[i])
  }

  /** An open slot carries no live booking: the index never has to reject an insert. */
  lemma OpenSlotIsFree(db: Db, s: Uuid)
    requires Exclusive(db) && s in db.slots && db.slots[s].status != SlotBooked
    ensures !HasLive(db.bookings, s)
  {
  }

  /** In a state the guards have kept, no create that wins its compare-and-set is ever
      turned away by the index on live bookings: the guard alone suffices. */
  lemma IndexNeverFires(db: Db, c: Call)
    requires Exclusive(db) && c.WellFormed()
    ensures c.CreateCall? && CreateSlotFits(db, c) ==> !HasLive(db.bookings, c.create.slotId)
    ensures c.RescheduleCall? && MoveSlotFits(db, c) ==>
            !HasLive(CancelBookingRow(db.bookings, c.move.bookingId), c.move.newSlotId)
  {
  }

  lemma CreateExclusive(db: Db, c: Call)
    requires Exclusive(db) && c.CreateCall? && c.WellFormed()
    ensures Exclusive(Create(db, c).0)
  {
    if Create(db, c).1.Created? {
      OpenSlotIsFree(db, c.create.slotId);
    }
  }

  lemma RescheduleExclusive(db: Db, c: Call)
    requires Exclusive(db) && c.RescheduleCall? && c.WellFormed()
    ensures Exclusive(Reschedule(db, c).0)
  {
    if Reschedule(db, c).1.Created? {
      OpenSlotIsFree(db, c.move.newSlotId);
    }
  }

  lemma DecideExclusive(db: Db, id: Uuid, client: Uuid, to: BookingStatus)
    requires Exclusive(db) && to != Booked
    ensures Exclusive(Decide(db, id, client, to).0)
  {
  }

  lemma CancelExclusive(db: Db, c: Call)
    requires Exclusive(db) && c.CancelCall?
    ensures Exclusive(Cancel(db, c).0)
  {
  }

  lemma TransitionExclusive(db: Db, id: Uuid, to: BookingStatus, expected: Option<int>)
    requires Exclusive(db)
    ensures Exclusive(Transition(db, id, to, expected).0)
  {
  }

  lemma LifecycleCancelExclusive(db: Db, id: Uuid, window: int, now: int)
    requires Exclusive(db)
    ensures Exclusive(LifecycleCancel(db, id, window, now).0)
  {
  }

  /** Every guarded request keeps slot exclusivity. */
  lemma GuardedExclusive(db: Db, c: Call)
    requires Exclusive(db) && Guarded(c)
    ensures Exclusive(Apply(db, c).0)
  {
    match c
    case CreateCall(_, _, _, _, _, _) => CreateExclusive(db, c);
    case RescheduleCall(_, _, _) => RescheduleExclusive(db, c);
    case ConfirmCall(id, client) => DecideExclusive(db, id, client, Completed);
    case DeclineCall(id, client) => DecideExclusive(db, id, client, Cancelled);
    case CancelCall(_, _, _, _, _) => CancelExclusive(db, c);
    case TransitionCall(id, to, expected) => TransitionExclusive(db, id, to, expected);
    case LifecycleCancelCall(id, window, now) => LifecycleCancelExclusive(db, id, window, now);
  }

  /** No double booking over any run of guarded requests as atomic steps. */
  lemma {:induction false} NoDoubleBooking(db: Db, calls: seq<Call>)
    requires Exclusive(db) && AllGuarded(calls)
    ensures AllWellFormed(calls) && Exclusive(Serial(db, calls))
  {
    if calls != [] {
      NoDoubleBooking(db, calls[..|calls| - 1]);
      GuardedExclusive(Serial(db, calls[..|calls| - 1]), calls[|calls| - 1]);
    }
  }

  /** PATCH status and the unguarded writes of cancel included, the index and the
      rollback it forces still leave at most one live booking per slot. */
  lemma AnyCallOneLive(db: Db, c: Call)
    requires OneLive(db) && c.WellFormed()
    ensures OneLive(Apply(db, c).0)
  {
    match c
    case CreateCall(_, _, _, _, _, _) => CreateOneLive(db, c);
    case RescheduleCall(_, _, _) => RescheduleOneLive(db, c);
    case PatchCall(id, client, to) => PatchOneLive(db, id, client, to);
    case CancelCall(_, _, _, _, _) => CancelOneLive(db, c);
    case CancelWrites(id, slot) => EndingOneLive(db, CancelTail(db, id, slot));
    case ConfirmCall(id, client) => DecideOneLive(db, id, client, Completed);
    case DeclineCall(id, client) => DecideOneLive(db, id, client, Cancelled);
    case TransitionCall(id, to, expected) => TransitionOneLive(db, id, to, expected);
    case LifecycleCancelCall(id, window, now) => LifecycleCancelOneLive(db, id, window, now);
  }

  /** Bookings keep their slots and none comes to life. */
  lemma EndingOneLive(db: Db, db': Db)
    requires OneLive(db) && db'.bookings.Keys == db.bookings.Keys
    requires forall b | b in db.bookings ::
               db'.bookings[b].slot == db.bookings[b].slot && (db'.bookings[b].Live() ==> db.bookings[b].Live())
    ensures OneLive(db')
  {
  }

  lemma DecideOneLive(db: Db, id: Uuid, client: Uuid, to: BookingStatus)
    requires OneLive(db)
    ensures OneLive(Decide(db, id, client, to).0)
  {
    EndingOneLive(db, Decide(db, id, client, to).0);
  }

  lemma CancelOneLive(db: Db, c: Call)
    requires OneLive(db) && c.CancelCall?
    ensures OneLive(Cancel(db, c).0)
  {
    EndingOneLive(db, Cancel(db, c).0);
  }

  lemma TransitionOneLive(db: Db, id: Uuid, to: BookingStatus, expected: Option<int>)
    requires OneLive(db)
    ensures OneLive(Transition(db, id, to, expected).0)
  {
    EndingOneLive(db, Transition(db, id, to, expected).0);
  }

  lemma LifecycleCancelOneLive(db: Db, id: Uuid, window: int, now: int)
    requires OneLive(db)
    ensures OneLive(LifecycleCancel(db, id, window, now).0)
  {
    EndingOneLive(db, LifecycleCancel(db, id, window, now).0);
  }

  lemma CreateOneLive(db: Db, c: Call)
    requires OneLive(db) && c.CreateCall? && c.WellFormed()
    ensures OneLive(Create(db, c).0)
  {
  }

  lemma RescheduleOneLive(db: Db, c: Call)
    requires OneLive(db) && c.RescheduleCall? && c.WellFormed()
    ensures OneLive(Reschedule(db, c).0)
  {
    if Reschedule(db, c).1.Created? {
      var cancelled := CancelBookingRow(db.bookings, c.move.bookingId);
      assert !HasLive(cancelled, c.move.newSlotId);
    }
  }

  lemma PatchOneLive(db: Db, id: Uuid, client: Uuid, to: string)
    requires OneLive(db)
    ensures OneLive(Patch(db, id, client, to).0)
  {
  }

  /** PATCH status succeeds exactly for the booking's own client, with one of the three listed statuses the table
      admits, unless it would revive the booking on a slot that has another live one. */
  lemma PatchSucceedsExactly(db: Db, id: Uuid, client: Uuid, to: string)
    ensures Patch(db, id, client, to).1.Updated? <==>
            id in db.bookings && db.bookings[id].client == client && to in ["completed", "cancelled", "booked"] &&
            !(db.bookings[id].status == Cancelled && to != "cancelled" && HasLive(db.bookings, db.bookings[id].slot))
    ensures id in db.bookings && db.bookings[id].client == client && to in ["confirmed", "declined"] ==>
            Patch(db, id, client, to) == (db, Rejected(ConstraintViolation))
  {
  }

  /** PATCH brings a cancelled booking back to life on a slot that nobody else has and that is not
      marked booked. */
  predicate RevivesUnmarked(db: Db, id: Uuid, client: Uuid, to: string) {
    id in db.bookings && db.bookings[id].client == client && db.bookings[id].status == Cancelled &&
    to in ["completed", "booked"] && !HasLive(db.bookings, db.bookings[id].slot) &&
    (db.bookings[id].slot in db.slots ==> db.slots[db.bookings[id].slot].status != SlotBooked)
  }

  /** PATCH status keeps exclusivity exactly when it does not do that. */
  lemma PatchExclusiveExactly(db: Db, id: Uuid, client: Uuid, to: string)
    requires Exclusive(db)
    ensures Exclusive(Patch(db, id, client, to).0) <==> !RevivesUnmarked(db, id, client, to)
  {
    PatchOneLive(db, id, client, to);
    if RevivesUnmarked(db, id, client, to) {
      var db' := Patch(db, id, client, to).0;
      assert id in db'.bookings && db'.bookings[id].Live();
    }
  }

  /** The unguarded writes of cancel keep exclusivity exactly when the slot they open
      carries no live booking but the cancelled one: reads made earlier do not ensure that. */
  lemma CancelWritesExclusiveExactly(db: Db, id: Uuid, slot: Uuid)
    requires Exclusive(db)
    ensures Exclusive(CancelTail(db, id, slot)) <==>
            forall b | b in db.bookings && b != id && db.bookings[b].Live() :: db.bookings[b].slot != slot
  {
    var db' := CancelTail(db, id, slot);
    if b :| b in db.bookings && b != id && db.bookings[b].Live() && db.bookings[b].slot == slot {
      assert b in db'.bookings && db'.bookings[b].Live();
    }
  }

  // ---------- the same for interleaved transactions ----------

  /** Create, reschedule, confirm and decline: the requests that lock what they test. */
  predicate Locking(c: Call) {
    c.WellFormed() && (c.CreateCall? || c.RescheduleCall? || c.ConfirmCall? || c.DeclineCall?)
  }

  predicate LockingAction(a: Interleaving.Action) {
    a.Begin? ==> Locking(a.call)
  }

  predicate AllLocking(actions: seq<Interleaving.Action>) {
    forall i | 0 <= i < |actions| :: LockingAction(actions[i])
  }

  ghost predicate OnlyLocking(s: Interleaving.Sys) {
    (forall t | t in s.active :: Locking(s.active[t].call)) && (forall i | 0 <= i < |s.log| :: Locking(s.log[i]))
  }

  lemma StepLocking(s: Interleaving.Sys, a: Interleaving.Action)
    requires OnlyLocking(s) && LockingAction(a) && Interleaving.Step(T.Next, s, a).Some?
    ensures OnlyLocking(Interleaving.Step(T.Next, s, a).value)
  {
  }

  lemma {:induction false} RunLocking(db: Db, actions: seq<Interleaving.Action>)
    requires AllLocking(actions)
    requires Interleaving.Run(T.Next, Interleaving.Initial(db), actions).Some?
    ensures OnlyLocking(Interleaving.Run(T.Next, Interleaving.Initial(db), actions).value)
  {
    if actions != [] {
      var before := actions[..|actions| - 1];
      RunLocking(db, before);
      StepLocking(Interleaving.Run(T.Next, Interleaving.Initial(db), before).value, actions[|actions| - 1]);
    }
  }

  lemma {:induction false} SerialOneLive(db: Db, calls: seq<Call>)
    requires OneLive(db) && AllWellFormed(calls)
    ensures OneLive(Serial(db, calls))
  {
    if calls != [] {
      SerialOneLive(db, calls[..|calls| - 1]);
      AnyCallOneLive(Serial(db, calls[..|calls| - 1]), calls[|calls| - 1]);
    }
  }

  /** Slot exclusivity of the committed tables in every reachable state of interleaved
      create, reschedule, confirm and decline transactions. */
  lemma NoDoubleBookingInterleaved(db: Db, actions: seq<Interleaving.Action>)
    requires Exclusive(db) && AllLocking(actions)
    requires Interleaving.Run(T.Next, Interleaving.Initial(db), actions).Some?
    ensures Exclusive(Interleaving.Run(T.Next, Interleaving.Initial(db), actions).value.db)
  {
    Interleaving.Serialisable(db, actions);
    RunLocking(db, actions);
    NoDoubleBooking(db, Interleaving.Run(T.Next, Interleaving.Initial(db), actions).value.log);
  }

  /** With PATCH status and the unlocked cancel interleaving too, one live booking per slot still holds. */
  lemma OneLiveInterleaved(db: Db, actions: seq<Interleaving.Action>)
    requires OneLive(db)
    requires Interleaving.Run(T.Next, Interleaving.Initial(db), actions).Some?
    ensures OneLive(Interleaving.Run(T.Next, Interleaving.Initial(db), actions).value.db)
  {
    Interleaving.Serialisable(db, actions);
    SerialOneLive(db, Interleaving.Run(T.Next, Interleaving.Initial(db), actions).value.log);
  }
}
