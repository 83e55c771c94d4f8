/** Two runs in which an endpoint that does not lock what it read leaves a live booking on an
    open slot. */
module UnlockedEndpoints {
  import opened Tables
  import opened Requests
  import opened Transactions
  import opened Programs
  import opened Interleaving
  import opened SlotExclusivity
  import DeadlockFreedom

  const FIRST := Uuid("first slot")
  const SECOND := Uuid("second slot")
  const CLIENT := Uuid("client")
  const OTHER := Uuid("other client")
  const BOOKING := Uuid("booking")
  const MOVED := Uuid("moved booking")
  const LATER := Uuid("later booking")

  /** A slot two days ahead. */
  function TwoDaysAhead(hour: int, status: SlotStatus): Slot {
    Slot(Uuid("provider"), (48 + hour) * MS_PER_HOUR, (49 + hour) * MS_PER_HOUR, status)
  }

  /** A live booking sits on an open slot. */
  predicate LiveOnOpen(db: Db, b: Uuid) {
    b in db.bookings && db.bookings[b].Live() && db.bookings[b].slot in db.slots &&
    db.slots[db.bookings[b].slot].status == SlotOpen
  }

  lemma LiveOnOpenBreaks(db: Db, b: Uuid)
    requires LiveOnOpen(db, b)
    ensures !Exclusive(db)
  {
  }

  // ---------- PATCH status ----------

  const ONE_OPEN := Db(map[FIRST := TwoDaysAhead(0, SlotOpen)], map[], map[], map[])
  const BOOK := CreateCall(CreateRequest(FIRST, CLIENT, None, "UTC"), 0, 4, 0, 0, BOOKING)
  const CANCEL := CancelCall(BOOKING, CLIENT, 1, 24, 0)
  const REVIVE := PatchCall(BOOKING, CLIENT, "booked")

  lemma BookedAndCancelled()
    ensures var db := Apply(Apply(ONE_OPEN, BOOK).0, CANCEL).0;
            db.bookings == map[BOOKING := Booking(FIRST, CLIENT, "UTC", Cancelled, 1)] &&
            db.slots == map[FIRST := TwoDaysAhead(0, SlotOpen)]
  {
    var db1 := Create(ONE_OPEN, BOOK).0;
    assert Create(ONE_OPEN, BOOK).1 == Created(BOOKING);
    assert db1.bookings == map[BOOKING := Booking(FIRST, CLIENT, "UTC", Booked, 1)];
    assert db1.slots == map[FIRST := TwoDaysAhead(0, SlotBooked)];
    assert Cancel(db1, CANCEL).1 == NoContent;
    assert db1.bookings[BOOKING := Booking(FIRST, CLIENT, "UTC", Cancelled, 1)] ==
           map[BOOKING := Booking(FIRST, CLIENT, "UTC", Cancelled, 1)];
    assert db1.slots[FIRST := TwoDaysAhead(0, SlotOpen)] == map[FIRST := TwoDaysAhead(0, SlotOpen)];
  }

  /** From one open slot: book it, cancel, PATCH the booking back to 'booked'.  The slot stays open. */
  lemma RevivedOnOpenSlot()
    ensures AllWellFormed([BOOK, CANCEL, REVIVE])
    ensures Exclusive(ONE_OPEN) && LiveOnOpen(Serial(ONE_OPEN, [BOOK, CANCEL, REVIVE]), BOOKING)
    ensures !Exclusive(Serial(ONE_OPEN, [BOOK, CANCEL, REVIVE]))
  {
    var calls := [BOOK, CANCEL, REVIVE];
    assert calls[..2] == [BOOK, CANCEL] && [BOOK, CANCEL][..1] == [BOOK] && [BOOK][..0] == [];
    assert Serial(ONE_OPEN, [BOOK]) == Apply(ONE_OPEN, BOOK).0;
    assert Serial(ONE_OPEN, [BOOK, CANCEL]) == Apply(Apply(ONE_OPEN, BOOK).0, CANCEL).0;
    var db := Serial(ONE_OPEN, [BOOK, CANCEL]);
    BookedAndCancelled();
    assert !HasLive(db.bookings, FIRST);
    assert Patch(db, BOOKING, CLIENT, "booked").1 == Updated(2);
    assert Serial(ONE_OPEN, calls) == Patch(db, BOOKING, CLIENT, "booked").0;
    LiveOnOpenBreaks(Serial(ONE_OPEN, calls), BOOKING);
  }

  // ---------- the stale writes of cancel ----------

  const ONE_BOOKED := Db(map[FIRST := TwoDaysAhead(0, SlotBooked), SECOND := TwoDaysAhead(2, SlotOpen)],
                        map[BOOKING := Booking(FIRST, CLIENT, "UTC", Booked, 1)], map[], map[])
  const MOVE := RescheduleCall(RescheduleRequest(BOOKING, SECOND, None, 1, 1, None), 0, MOVED)
  const BOOK_FREED := CreateCall(CreateRequest(FIRST, OTHER, None, "UTC"), 0, 4, 0, 0, LATER)

  lemma Moves()
    ensures Apply(ONE_BOOKED, MOVE).1 == Created(MOVED)
    ensures var db := Apply(ONE_BOOKED, MOVE).0;
            FIRST in db.slots && db.slots[FIRST] == TwoDaysAhead(0, SlotOpen) && db.keys == map[] &&
            (forall b | b in db.bookings :: b in {BOOKING, MOVED}) && !HasLive(db.bookings, FIRST) &&
            forall r | r in db.reminders :: r.booking == MOVED
  {
    var cancelled := CancelBookingRow(ONE_BOOKED.bookings, BOOKING);
    assert forall b | b in cancelled :: b == BOOKING && cancelled[b].status == Cancelled;
    assert !HasLive(cancelled, SECOND);
    assert Reschedule(ONE_BOOKED, MOVE).1 == Created(MOVED);
  }

  lemma Books(db: Db)
    requires FIRST in db.slots && db.slots[FIRST] == TwoDaysAhead(0, SlotOpen)
    requires LATER !in db.bookings && !HasLive(db.bookings, FIRST) && forall r | r in db.reminders :: r.booking != LATER
    ensures Apply(db, BOOK_FREED).1 == Created(LATER)
    ensures LiveOnOpen(CancelTail(Apply(db, BOOK_FREED).0, BOOKING, FIRST), LATER)
  {
    assert Create(db, BOOK_FREED).1 == Created(LATER);
  }

  /** One client's cancel reads the booking and pauses; the booking is moved away and another client books the
      freed slot; then the cancel's writes open that slot under the new booking. */
  lemma StaleCancelOpensTakenSlot() returns (actions: seq<Action>, s: Sys)
    ensures Exclusive(ONE_BOOKED) && Run(Next, Initial(ONE_BOOKED), actions) == Some(s)
    ensures s.active == map[] && s.log == [MOVE, BOOK_FREED, CancelWrites(BOOKING, FIRST)]
    ensures LiveOnOpen(s.db, LATER) && !Exclusive(s.db)
  {
    var s0 := Initial(ONE_BOOKED);
    var stale := Start(CancelWrites(BOOKING, FIRST));
    var s1 := s0.(active := map[0 := stale]);
    var s2 := s1.(active := map[0 := stale, 1 := Start(MOVE)]);
    Paused(s0, s1, s2);
    Moves();
    actions := RunsToCommit(s0, [Begin(0, CancelCall(BOOKING, CLIENT, 1, 24, 0))] + [Begin(1, MOVE)], s2, 1);
    var s3 := Sys(Apply(ONE_BOOKED, MOVE).0, map[0 := stale], [MOVE], [Created(MOVED)]);
    assert s2.active - {1} == map[0 := stale];
    assert s2.log + [MOVE] == [MOVE] && s2.replies + [Created(MOVED)] == [Created(MOVED)];
    actions, s := BooksAndCancels(s0, actions, s3);
  }

  lemma Paused(s0: Sys, s1: Sys, s2: Sys)
    requires s0 == Initial(ONE_BOOKED)
    requires s1 == s0.(active := map[0 := Start(CancelWrites(BOOKING, FIRST))])
    requires s2 == s0.(active := map[0 := Start(CancelWrites(BOOKING, FIRST)), 1 := Start(MOVE)])
    ensures Run(Next, s0, [Begin(0, CancelCall(BOOKING, CLIENT, 1, 24, 0))] + [Begin(1, MOVE)]) == Some(s2)
    ensures Undisturbed(Next, ONE_BOOKED, Start(MOVE))
  {
    var first, second := Begin(0, CancelCall(BOOKING, CLIENT, 1, 24, 0)), Begin(1, MOVE);
    assert Run(Next, s0, []) == Some(s0);
    assert CancelGuard(ONE_BOOKED, first.call) == None;
    assert map[][0 := Start(CancelWrites(BOOKING, FIRST))] == s1.active;
    assert Step(Next, s0, first) == Some(s1);
    RunExtends(Next, s0, [], s0, first, s1);
    assert MoveGuard(ONE_BOOKED, MOVE.move) == None && !MoveTooLate(ONE_BOOKED, MOVE);
    assert s1.active[1 := Start(MOVE)] == s2.active;
    assert Step(Next, s1, second) == Some(s2);
    assert [] + [first] == [first];
    RunExtends(Next, s0, [first], s1, second, s2);
  }

  lemma BooksFreed(s0: Sys, before: seq<Action>, s3: Sys) returns (actions: seq<Action>, s5: Sys)
    requires Run(Next, s0, before) == Some(s3) && s3.log == [MOVE]
    requires s3.active == map[0 := Start(CancelWrites(BOOKING, FIRST))]
    requires Apply(s3.db, BOOK_FREED).1 == Created(LATER) && LATER !in s3.db.bookings
    ensures Run(Next, s0, actions) == Some(s5) && s5.active == s3.active
    ensures s5.db == Apply(s3.db, BOOK_FREED).0 && s5.log == [MOVE, BOOK_FREED]
  {
    var s4 := s3.(active := s3.active[2 := Start(BOOK_FREED)]);
    assert Step(Next, s3, Begin(2, BOOK_FREED)) == Some(s4);
    RunExtends(Next, s0, before, s3, Begin(2, BOOK_FREED), s4);
    actions := RunsToCommit(s0, before + [Begin(2, BOOK_FREED)], s4, 2);
    s5 := Sys(Apply(s3.db, BOOK_FREED).0, s3.active, [MOVE] + [BOOK_FREED], s3.replies + [Created(LATER)]);
    assert s4.active - {2} == s3.active;
  }

  lemma BooksAndCancels(s0: Sys, before: seq<Action>, s3: Sys) returns (actions: seq<Action>, s: Sys)
    requires Run(Next, s0, before) == Some(s3) && s3.log == [MOVE]
    requires s3.db == Apply(ONE_BOOKED, MOVE).0 && s3.active == map[0 := Start(CancelWrites(BOOKING, FIRST))]
    ensures Run(Next, s0, actions) == Some(s) && s.active == map[]
    ensures s.log == [MOVE, BOOK_FREED, CancelWrites(BOOKING, FIRST)] && LiveOnOpen(s.db, LATER) && !Exclusive(s.db)
  {
    Moves();
    Books(s3.db);
    var s5: Sys;
    actions, s5 := BooksFreed(s0, before, s3);
    actions, s := Cancels(s0, actions, s5);
  }

  lemma Cancels(s0: Sys, before: seq<Action>, s5: Sys) returns (actions: seq<Action>, s: Sys)
    requires Run(Next, s0, before) == Some(s5) && s5.active == map[0 := Start(CancelWrites(BOOKING, FIRST))]
    ensures Run(Next, s0, actions) == Some(s) && s.active == map[] && s.db == CancelTail(s5.db, BOOKING, FIRST)
    ensures s.log == s5.log + [CancelWrites(BOOKING, FIRST)]
    ensures LiveOnOpen(s.db, LATER) ==> !Exclusive(s.db)
  {
    var c := CancelWrites(BOOKING, FIRST);
    actions := RunsToCommit(s0, before, s5, 0);
    s := Sys(Apply(s5.db, c).0, s5.active - {0}, s5.log + [c], s5.replies + [NoContent]);
    assert s5.active - {0} == map[];
    if LiveOnOpen(s.db, LATER) {
      LiveOnOpenBreaks(s.db, LATER);
    }
  }

  // ---------- a wait cycle ----------

  const CANCEL_REVIVED := CancelCall(BOOKING, CLIENT, 2, 24, 0)
  const BOOK_OPEN := CreateCall(CreateRequest(FIRST, OTHER, None, "UTC"), 0, 4, 0, 0, LATER)

  lemma StartsAlone(s0: Sys, actions: seq<Action>, s: Sys, c: Call, a: Call) returns (s1: Sys)
    requires Run(Next, s0, actions) == Some(s) && s.active == map[] && c.WellFormed() && FreshIds(s, c)
    requires Admitted(s.db, c) == Some(a)
    ensures Run(Next, s0, actions + [Begin(0, c)]) == Some(s1)
    ensures s1.db == s.db && s1.active == map[0 := Start(a)] && s1.active - {0} == map[] && OthersHoldNothing(s1, 0)
    ensures Undisturbed(Next, s1.db, s1.active[0])
  {
    s1 := s.(active := map[0 := Start(a)]);
    assert s.active[0 := Start(a)] == s1.active;
    BeginsAdmitted(Next, s0, actions, s, 0, c, a, s1);
  }

  /** A request that runs by itself from its first statement to its commit. */
  lemma CommitsNext(s0: Sys, actions: seq<Action>, s: Sys, c: Call, a: Call) returns (more: seq<Action>, s': Sys)
    requires Run(Next, s0, actions) == Some(s) && s.active == map[] && c.WellFormed() && FreshIds(s, c)
    requires Admitted(s.db, c) == Some(a) && IsProgram(a) && CarriedOut(s.db, a)
    ensures Run(Next, s0, more) == Some(s') && s'.active == map[] && s'.db == Apply(s.db, a).0
  {
    var s1 := StartsAlone(s0, actions, s, c, a);
    more := RunsToCommit(s0, actions + [Begin(0, c)], s1, 0);
    s' := Run(Next, s0, more).value;
  }

  /** One open slot, its cancelled booking revived: the booking is live and the slot still open. */
  predicate Revived(db: Db) {
    db.bookings == map[BOOKING := Booking(FIRST, CLIENT, "UTC", Booked, 2)] &&
    db.slots == map[FIRST := TwoDaysAhead(0, SlotOpen)]
  }

  lemma RevivedReached() returns (actions: seq<Action>, s: Sys)
    ensures Run(Next, Initial(ONE_OPEN), actions) == Some(s) && s.active == map[] && Revived(s.db)
  {
    var s1: Sys, s2: Sys;
    actions, s1 := BookedReached();
    BookedAndCancelled();
    CancelAdmitted();
    actions, s2 := CommitsNext(Initial(ONE_OPEN), actions, s1, CANCEL, CancelWrites(BOOKING, FIRST));
    PatchRevives(s2.db);
    actions, s := CommitsNext(Initial(ONE_OPEN), actions, s2, REVIVE, REVIVE);
  }

  lemma BookedReached() returns (actions: seq<Action>, s: Sys)
    ensures Run(Next, Initial(ONE_OPEN), actions) == Some(s) && s.active == map[] && s.db == Apply(ONE_OPEN, BOOK).0
  {
    var s0 := Initial(ONE_OPEN);
    assert Create(ONE_OPEN, BOOK).1 == Created(BOOKING);
    assert Run(Next, s0, []) == Some(s0);
    actions, s := CommitsNext(s0, [], s0, BOOK, BOOK);
  }

  lemma PatchRevives(db: Db)
    requires db.bookings == map[BOOKING := Booking(FIRST, CLIENT, "UTC", Cancelled, 1)]
    requires db.slots == map[FIRST := TwoDaysAhead(0, SlotOpen)]
    ensures Apply(db, REVIVE).1 == Updated(2) && Revived(Apply(db, REVIVE).0)
  {
    assert !HasLive(db.bookings, FIRST);
    assert db.bookings[BOOKING := Booking(FIRST, CLIENT, "UTC", Booked, 2)] ==
           map[BOOKING := Booking(FIRST, CLIENT, "UTC", Booked, 2)];
  }

  lemma CancelAdmitted()
    ensures var db := Apply(ONE_OPEN, BOOK).0;
            Admitted(db, CANCEL) == Some(CancelWrites(BOOKING, FIRST)) &&
            Apply(db, CancelWrites(BOOKING, FIRST)).0 == Apply(db, CANCEL).0
  {
    var db := Apply(ONE_OPEN, BOOK).0;
    assert Create(ONE_OPEN, BOOK).1 == Created(BOOKING);
    assert CancelGuard(db, CANCEL) == None;
  }

  /** The create wins the open slot's row; the cancel's first write takes the booking and its index entry. */
  lemma FirstStatements(db: Db) returns (create: Txn, cancel: Txn)
    requires Revived(db)
    ensures Exec(Next, Start(BOOK_OPEN), db) == Some(create)
    ensures create.call == BOOK_OPEN && create.pc == 1 && create.held == {SlotRow(FIRST)}
    ensures Exec(Next, Start(CancelWrites(BOOKING, FIRST)), db) == Some(cancel)
    ensures cancel.call == CancelWrites(BOOKING, FIRST) && cancel.pc == 1
    ensures cancel.held == {BookingRow(BOOKING), LiveEntry(FIRST)}
  {
    create, cancel := Exec(Next, Start(BOOK_OPEN), db).value, Exec(Next, Start(CancelWrites(BOOKING, FIRST)), db).value;
    StartView(db, BOOK_OPEN);
    StartView(db, CancelWrites(BOOKING, FIRST));
    assert {} + {SlotRow(FIRST)} == {SlotRow(FIRST)};
    assert {} + {BookingRow(BOOKING), LiveEntry(FIRST)} == {BookingRow(BOOKING), LiveEntry(FIRST)};
  }

  /** From one open slot, after a revival: a create that has won the slot waits for the index entry a cancel holds,
      and the cancel for the slot. */
  lemma RevivalDeadlocks() returns (actions: seq<Action>, s: Sys)
    ensures Run(Next, Initial(ONE_OPEN), actions) == Some(s)
    ensures DeadlockFreedom.Waits(s, 0, 1) && DeadlockFreedom.Waits(s, 1, 0)
    ensures DeadlockFreedom.WaitChain(s, [0, 1, 0])
  {
    var s0 := Initial(ONE_OPEN);
    var before, s1 := RevivedReached();
    var cancel, create := Start(CancelWrites(BOOKING, FIRST)), Start(BOOK_OPEN);
    var s2, s3 := s1.(active := map[0 := cancel]), s1.(active := map[0 := cancel, 1 := create]);
    assert CancelGuard(s1.db, CANCEL_REVIVED) == None;
    assert Step(Next, s1, Begin(0, CANCEL_REVIVED)) == Some(s2);
    RunExtends(Next, s0, before, s1, Begin(0, CANCEL_REVIVED), s2);
    assert s2.active[1 := create] == s3.active;
    assert Step(Next, s2, Begin(1, BOOK_OPEN)) == Some(s3);
    RunExtends(Next, s0, before + [Begin(0, CANCEL_REVIVED)], s2, Begin(1, BOOK_OPEN), s3);
    actions := before + [Begin(0, CANCEL_REVIVED)] + [Begin(1, BOOK_OPEN)];
    actions, s := BothAdvance(s0, actions, s3);
  }

  lemma BothAdvance(s0: Sys, before: seq<Action>, s3: Sys) returns (actions: seq<Action>, s: Sys)
    requires Run(Next, s0, before) == Some(s3) && Revived(s3.db)
    requires s3.active == map[0 := Start(CancelWrites(BOOKING, FIRST)), 1 := Start(BOOK_OPEN)]
    ensures Run(Next, s0, actions) == Some(s)
    ensures DeadlockFreedom.Waits(s, 0, 1) && DeadlockFreedom.Waits(s, 1, 0)
    ensures DeadlockFreedom.WaitChain(s, [0, 1, 0])
  {
    var create, cancel := FirstStatements(s3.db);
    var s4 := s3.(active := map[0 := Start(CancelWrites(BOOKING, FIRST)), 1 := create]);
    s := s3.(active := map[0 := cancel, 1 := create]);
    CreateAdvances(s0, before, s3, create, s4);
    CancelAdvances(s0, before + [Advance(1)], s4, create, cancel, s);
    actions := before + [Advance(1)] + [Advance(0)];
    EachWaits(s, create, cancel);
  }

  lemma CreateAdvances(s0: Sys, before: seq<Action>, s3: Sys, create: Txn, s4: Sys)
    requires Run(Next, s0, before) == Some(s3) && Exec(Next, Start(BOOK_OPEN), s3.db) == Some(create)
    requires s3.active == map[0 := Start(CancelWrites(BOOKING, FIRST)), 1 := Start(BOOK_OPEN)]
    requires s4 == s3.(active := map[0 := Start(CancelWrites(BOOKING, FIRST)), 1 := create])
    ensures Run(Next, s0, before + [Advance(1)]) == Some(s4)
  {
    assert s3.active[1 := create] == s4.active;
    RunExtends(Next, s0, before, s3, Advance(1), s4);
  }

  lemma CancelAdvances(s0: Sys, before: seq<Action>, s4: Sys, create: Txn, cancel: Txn, s: Sys)
    requires Run(Next, s0, before) == Some(s4) && Revived(s4.db) && create.held == {SlotRow(FIRST)}
    requires Exec(Next, Start(CancelWrites(BOOKING, FIRST)), s4.db) == Some(cancel)
    requires s4.active == map[0 := Start(CancelWrites(BOOKING, FIRST)), 1 := create]
    requires s == s4.(active := map[0 := cancel, 1 := create])
    ensures Run(Next, s0, before + [Advance(0)]) == Some(s)
  {
    StartView(s4.db, CancelWrites(BOOKING, FIRST));
    assert Wanted(Next, s4, 0) == {BookingRow(BOOKING), LiveEntry(FIRST)};
    assert s4.active[0 := cancel] == s.active;
    RunExtends(Next, s0, before, s4, Advance(0), s);
  }

  lemma EachWaits(s: Sys, create: Txn, cancel: Txn)
    requires s.active == map[0 := cancel, 1 := create]
    requires create.call == BOOK_OPEN && create.pc == 1 && create.held == {SlotRow(FIRST)}
    requires cancel.call == CancelWrites(BOOKING, FIRST) && cancel.pc == 1
    requires cancel.held == {BookingRow(BOOKING), LiveEntry(FIRST)}
    ensures DeadlockFreedom.Waits(s, 0, 1) && DeadlockFreedom.Waits(s, 1, 0)
    ensures DeadlockFreedom.WaitChain(s, [0, 1, 0])
  {
    assert Wanted(Next, s, 0) == {SlotRow(FIRST)} && SlotRow(FIRST) in s.active[1].held;
    assert LiveEntry(FIRST) in Wanted(Next, s, 1) && LiveEntry(FIRST) in s.active[0].held;
  }
}
