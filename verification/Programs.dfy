/** Running one transaction's statements alone has exactly the effect of the atomic request. */
module Programs {
  import opened Tables
  import opened Requests
  import opened Transactions

  lemma PlusAssoc<K, V>(a: map<K, V>, b: map<K, V>, c: map<K, V>)
    ensures (a + b) + c == a + (b + c)
  {
  }

  lemma MergeAssoc(db: Db, w: Db, w': Db)
    ensures Merge(Merge(db, w), w') == Merge(db, Merge(w, w'))
  {
    PlusAssoc(db.slots, w.slots, w'.slots);
    PlusAssoc(db.bookings, w.bookings, w'.bookings);
    PlusAssoc(db.reminders, w.reminders, w'.reminders);
    PlusAssoc(db.keys, w.keys, w'.keys);
  }

  /** What a statement makes of the state its transaction sees. */
  function Do(s: Stmt, v: Db): Option<Db> {
    match s
    case SelectForUpdate(b) => if b in v.bookings then Some(v) else None
    case CompareAndSet(x, notBefore) =>
      if SlotFits(v, x, notBefore) then Some(v.(slots := BookSlot(v.slots, x))) else None
    case OpenSlot(x) => Some(v.(slots := FreeSlot(v.slots, x)))
    case SetBooking(b, to, bump) =>
      if b !in v.bookings then Some(v)
      else if RevivalClash(v.bookings, b, to) then None
      else Some(v.(bookings := v.bookings[b := v.bookings[b].(status := to, version := v.bookings[b].version + bump)]))
    case InsertBooking(b, row) =>
      if b in v.bookings || HasLive(v.bookings, row.slot) then None else Some(v.(bookings := v.bookings[b := row]))
    case CancelReminders(b) => Some(v.(reminders := CancelRows(v.reminders, b)))
    case InsertReminder(b, offset, fireAt) =>
      if ReminderId(b, offset) in v.reminders then None
      else Some(v.(reminders := v.reminders[ReminderId(b, offset) := Reminder(fireAt, Scheduled, 0, None)]))
    case InsertKey(k, row) => if k in v.keys then None else Some(v.(keys := v.keys[k := row]))
    case Skip => Some(v)
    case Rollback(_) => None
    case Commit(_) => None
  }

  lemma MergeNothing(v: Db)
    ensures Merge(v, NO_WRITES) == v
  {
    assert v.slots + map[] == v.slots;
    assert v.bookings + map[] == v.bookings;
    assert v.reminders + map[] == v.reminders;
    assert v.keys + map[] == v.keys;
  }

  lemma MergeOne(v: Db, slots: Slots, bookings: Bookings, reminders: Reminders, keys: Keys)
    ensures Merge(v, NO_WRITES.(slots := slots)) == v.(slots := v.slots + slots)
    ensures Merge(v, NO_WRITES.(bookings := bookings)) == v.(bookings := v.bookings + bookings)
    ensures Merge(v, NO_WRITES.(reminders := reminders)) == v.(reminders := v.reminders + reminders)
    ensures Merge(v, NO_WRITES.(keys := keys)) == v.(keys := v.keys + keys)
  {
    MergeNothing(v);
  }

  /** On the slots. */
  lemma SlotWritesDo(s: Stmt, v: Db)
    requires (s.CompareAndSet? || s.OpenSlot?) && Writes(s, v).Some?
    ensures Do(s, v).Some? && Do(s, v).value == Merge(v, Writes(s, v).value)
  {
    var w := Writes(s, v).value.slots;
    MergeNothing(v);
    MergeOne(v, w, map[], map[], map[]);
    assert v.slots + w == if s.CompareAndSet? then BookSlot(v.slots, s.s) else FreeSlot(v.slots, s.s);
  }

  lemma BookingWritesDo(s: Stmt, v: Db)
    requires (s.SetBooking? || s.InsertBooking?) && Writes(s, v).Some?
    ensures Do(s, v).Some? && Do(s, v).value == Merge(v, Writes(s, v).value)
  {
    var w := Writes(s, v).value.bookings;
    MergeNothing(v);
    MergeOne(v, map[], w, map[], map[]);
    if s.InsertBooking? || s.b in v.bookings {
      assert v.bookings + w == v.bookings[s.b := w[s.b]];
    }
  }

  lemma ReminderWritesDo(s: Stmt, v: Db)
    requires (s.CancelReminders? || s.InsertReminder?) && Writes(s, v).Some?
    ensures Do(s, v).Some? && Do(s, v).value == Merge(v, Writes(s, v).value)
  {
    var w := Writes(s, v).value.reminders;
    MergeOne(v, map[], map[], w, map[]);
    if s.CancelReminders? {
      assert v.reminders + w == CancelRows(v.reminders, s.b);
    } else {
      var r := ReminderId(s.b, s.offset);
      assert v.reminders + w == v.reminders[r := w[r]];
    }
  }

  lemma KeyWritesDo(s: Stmt, v: Db)
    requires s.InsertKey? && Writes(s, v).Some?
    ensures Do(s, v).Some? && Do(s, v).value == Merge(v, Writes(s, v).value)
  {
    var w := Writes(s, v).value.keys;
    MergeOne(v, map[], map[], map[], w);
    assert v.keys + w == v.keys[s.k := s.keyRow];
  }

  lemma WritesDo(s: Stmt, v: Db)
    ensures Writes(s, v).Some? <==> Do(s, v).Some?
    ensures Writes(s, v).Some? ==> Do(s, v).value == Merge(v, Writes(s, v).value)
  {
    if Writes(s, v).Some? {
      match s
      case CompareAndSet(_, _) => SlotWritesDo(s, v);
      case OpenSlot(_) => SlotWritesDo(s, v);
      case SetBooking(_, _, _) => BookingWritesDo(s, v);
      case InsertBooking(_, _) => BookingWritesDo(s, v);
      case CancelReminders(_) => ReminderWritesDo(s, v);
      case InsertReminder(_, _, _) => ReminderWritesDo(s, v);
      case InsertKey(_, _) => KeyWritesDo(s, v);
      case _ => MergeNothing(v);
    }
  }

  lemma ExecDo(next: Program, t: Txn, db: Db)
    ensures Exec(next, t, db).Some? <==> Do(next(t), View(db, t)).Some?
    ensures Exec(next, t, db).Some? ==> View(db, Exec(next, t, db).value) == Do(next(t), View(db, t)).value
  {
    var s, v := next(t), View(db, t);
    WritesDo(s, v);
    if Exec(next, t, db).Some? {
      MergeAssoc(db, t.writes, Writes(s, v).value);
    }
  }

  /** Transaction `t` has executed `s` and become `t'`. */
  predicate Did(s: Stmt, db: Db, t: Txn, t': Txn) {
    var v := View(db, t);
    t'.call == t.call && t'.pc == t.pc + 1 &&
    Do(s, v).Some? && View(db, t') == Do(s, v).value &&
    t'.booking == (if s.SelectForUpdate? && s.b in v.bookings then Some(v.bookings[s.b]) else t.booking) &&
    t'.slot == (if s.CompareAndSet? && s.s in v.slots then Some(v.slots[s.s]) else t.slot)
  }

  lemma ExecDid(next: Program, t: Txn, db: Db)
    requires Exec(next, t, db).Some?
    ensures Did(next(t), db, t, Exec(next, t, db).value)
  {
    ExecDo(next, t, db);
  }

  lemma StartView(db: Db, call: Call)
    ensures View(db, Start(call)) == db
  {
    assert db.slots + map[] == db.slots;
    assert db.bookings + map[] == db.bookings;
    assert db.reminders + map[] == db.reminders;
    assert db.keys + map[] == db.keys;
  }

  lemma ReminderDo(v: Db, b: Uuid, offset: int, start: int, clock: int)
    requires Do(ReminderStmt(b, offset, start, clock), v).Some?
    ensures !ReminderClash(v.reminders, b, offset, start, clock)
    ensures Do(ReminderStmt(b, offset, start, clock), v).value ==
            v.(reminders := AddReminder(v.reminders, b, offset, start, clock))
  {
  }

  /** Neither withdrawing rows nor adding another offset hides a clash. */
  lemma ClashStays(reminders: Reminders, b: Uuid, offset: int, start: int, clock: int, other: int, gone: Uuid)
    requires other != offset
    ensures ReminderClash(AddReminder(reminders, b, other, start, clock), b, offset, start, clock) ==
            ReminderClash(reminders, b, offset, start, clock)
    ensures ReminderClash(CancelRows(reminders, gone), b, offset, start, clock) ==
            ReminderClash(reminders, b, offset, start, clock)
  {
  }

  // ---------- create ----------

  /** What a create sees after its first `n` statements. */
  function CreateView(db: Db, c: Call, n: nat): Db
    requires c.CreateCall? && c.WellFormed() && (n > 0 ==> CreateSlotFits(db, c))
  {
    var r := c.create;
    if n == 0 then db
    else
      var start := db.slots[r.slotId].start;
      Db(BookSlot(db.slots, r.slotId),
         if n >= 2 then db.bookings[c.newId := Booking(r.slotId, r.clientId, r.timezone, Booked, 1)] else db.bookings,
         if n >= 4 then CreateReminders(db.reminders, c, start)
         else if n == 3 then AddReminder(db.reminders, c.newId, 1440, start, c.clock1440)
         else db.reminders,
         if n >= 5 && HasKey(r.createKey) then db.keys[CreateKeyId(r) := KeyRow(r, c.newId)] else db.keys)
  }

  /** A create that has come as far as `t.pc` passed these tests on the committed tables. */
  ghost predicate CreateSeen(db: Db, t: Txn) {
    var c, n := t.call, t.pc;
    c.CreateCall? && c.WellFormed() && n <= 5 &&
    (n >= 1 ==>
      CreateSlotFits(db, c) && t.slot == Some(db.slots[c.create.slotId]) &&
      var start := db.slots[c.create.slotId].start;
      (n >= 2 ==> c.newId !in db.bookings && !HasLive(db.bookings, c.create.slotId)) &&
      (n >= 3 ==> !ReminderClash(db.reminders, c.newId, 1440, start, c.clock1440)) &&
      (n >= 4 ==> !ReminderClash(db.reminders, c.newId, 60, start, c.clock60)) &&
      (n >= 5 && HasKey(c.create.createKey) ==> CreateKeyId(c.create) !in db.keys)) &&
    View(db, t) == CreateView(db, c, n)
  }

  lemma CreateStepSlot(db: Db, t: Txn, t': Txn)
    requires CreateSeen(db, t) && Did(Next(t), db, t, t') && t.pc <= 1
    ensures CreateSeen(db, t')
  {
  }

  lemma CreateStepReminder(db: Db, t: Txn, t': Txn)
    requires CreateSeen(db, t) && Did(Next(t), db, t, t') && 2 <= t.pc <= 3
    ensures CreateSeen(db, t')
  {
    var c, v := t.call, View(db, t);
    var start, offset := t.slot.value.start, if t.pc == 2 then 1440 else 60;
    var clock := if t.pc == 2 then c.clock1440 else c.clock60;
    ReminderDo(v, c.newId, offset, start, clock);
  }

  lemma CreateStepKey(db: Db, t: Txn, t': Txn)
    requires CreateSeen(db, t) && Did(Next(t), db, t, t') && t.pc == 4
    ensures CreateSeen(db, t')
  {
  }

  lemma CreateStep(db: Db, t: Txn, t': Txn)
    requires CreateSeen(db, t) && Did(Next(t), db, t, t')
    ensures CreateSeen(db, t')
  {
    if t.pc <= 1 {
      CreateStepSlot(db, t, t');
    } else if t.pc <= 3 {
      CreateStepReminder(db, t, t');
    } else if t.pc == 4 {
      CreateStepKey(db, t, t');
    }
  }

  // ---------- reschedule ----------

  function MoveView(db: Db, c: Call, n: nat): Db
    requires c.RescheduleCall? && c.WellFormed()
    requires n > 1 ==> c.move.bookingId in db.bookings && MoveSlotFits(db, c)
  {
    if n <= 1 then db
    else
      var r := c.move;
      var prev := db.bookings[r.bookingId];
      var start := db.slots[r.newSlotId].start;
      var cancelled := CancelBookingRow(db.bookings, r.bookingId);
      var withdrawn := CancelRows(db.reminders, r.bookingId);
      Db(if n >= 4 then FreeSlot(BookSlot(db.slots, r.newSlotId), prev.slot) else BookSlot(db.slots, r.newSlotId),
         if n >= 5 then cancelled[c.newId := MovedBooking(prev, r.newSlotId)]
         else if n >= 3 then cancelled else db.bookings,
         if n >= 8 then MoveReminders(db.reminders, c, start)
         else if n == 7 then AddReminder(withdrawn, c.newId, 1440, start, c.now)
         else if n == 6 then withdrawn else db.reminders,
         if n >= 9 && HasKey(r.moveKey) then db.keys[MoveKeyId(db, r) := KeyRow(r, c.newId)] else db.keys)
  }

  ghost predicate MoveSeen(db: Db, t: Txn) {
    var c, n := t.call, t.pc;
    c.RescheduleCall? && c.WellFormed() && n <= 9 &&
    (n >= 1 ==> c.move.bookingId in db.bookings && t.booking == Some(db.bookings[c.move.bookingId])) &&
    (n >= 2 ==>
      MoveGuard(db, c.move).None? && MoveSlotFits(db, c) && t.slot == Some(db.slots[c.move.newSlotId]) &&
      var start := db.slots[c.move.newSlotId].start;
      (n >= 5 ==> c.newId !in db.bookings &&
                  !HasLive(CancelBookingRow(db.bookings, c.move.bookingId), c.move.newSlotId)) &&
      (n >= 7 ==> !ReminderClash(db.reminders, c.newId, 1440, start, c.now)) &&
      (n >= 8 ==> !ReminderClash(db.reminders, c.newId, 60, start, c.now)) &&
      (n >= 9 && HasKey(c.move.moveKey) ==> MoveKeyId(db, c.move) !in db.keys)) &&
    View(db, t) == MoveView(db, c, n)
  }

  lemma MoveStepGuard(db: Db, t: Txn, t': Txn)
    requires MoveSeen(db, t) && Did(Next(t), db, t, t') && t.pc <= 1
    ensures MoveSeen(db, t')
  {
  }

  lemma MoveStepRows(db: Db, t: Txn, t': Txn)
    requires MoveSeen(db, t) && Did(Next(t), db, t, t') && 2 <= t.pc <= 3
    ensures MoveSeen(db, t')
  {
  }

  lemma MoveStepInsert(db: Db, t: Txn, t': Txn)
    requires MoveSeen(db, t) && Did(Next(t), db, t, t') && t.pc == 4
    ensures MoveSeen(db, t')
  {
  }

  lemma MoveStepWithdraw(db: Db, t: Txn, t': Txn)
    requires MoveSeen(db, t) && Did(Next(t), db, t, t') && t.pc == 5
    ensures MoveSeen(db, t')
  {
  }

  lemma MoveStepFirstReminder(db: Db, t: Txn, t': Txn)
    requires MoveSeen(db, t) && Did(Next(t), db, t, t') && t.pc == 6
    ensures MoveSeen(db, t')
  {
    var c, v, start := t.call, View(db, t), t.slot.value.start;
    ReminderDo(v, c.newId, 1440, start, c.now);
    ClashStays(db.reminders, c.newId, 1440, start, c.now, 60, c.move.bookingId);
  }

  lemma MoveStepSecondReminder(db: Db, t: Txn, t': Txn)
    requires MoveSeen(db, t) && Did(Next(t), db, t, t') && t.pc == 7
    ensures MoveSeen(db, t')
  {
    var c, v, start := t.call, View(db, t), t.slot.value.start;
    ReminderDo(v, c.newId, 60, start, c.now);
    ClashStays(db.reminders, c.newId, 60, start, c.now, 1440, c.move.bookingId);
    ClashStays(CancelRows(db.reminders, c.move.bookingId), c.newId, 60, start, c.now, 1440, c.newId);
  }

  lemma MoveKeyDo(db: Db, c: Call, s: Stmt)
    requires c.RescheduleCall? && c.WellFormed() && c.move.bookingId in db.bookings && MoveSlotFits(db, c)
    requires s == if HasKey(c.move.moveKey) then InsertKey(MoveKeyId(db, c.move), KeyRow(c.move, c.newId)) else Skip
    requires Do(s, MoveView(db, c, 8)).Some?
    ensures Do(s, MoveView(db, c, 8)).value == MoveView(db, c, 9)
    ensures HasKey(c.move.moveKey) ==> MoveKeyId(db, c.move) !in db.keys
  {
  }

  lemma MoveStepKey(db: Db, t: Txn, t': Txn)
    requires MoveSeen(db, t) && Did(Next(t), db, t, t') && t.pc == 8
    ensures MoveSeen(db, t')
  {
    MoveKeyDo(db, t.call, Next(t));
  }

  lemma MoveStep(db: Db, t: Txn, t': Txn)
    requires MoveSeen(db, t) && Did(Next(t), db, t, t')
    ensures MoveSeen(db, t')
  {
    if t.pc <= 1 {
      MoveStepGuard(db, t, t');
    } else if t.pc <= 3 {
      MoveStepRows(db, t, t');
    } else if t.pc == 4 {
      MoveStepInsert(db, t, t');
    } else if t.pc == 5 {
      MoveStepWithdraw(db, t, t');
    } else if t.pc == 6 {
      MoveStepFirstReminder(db, t, t');
    } else if t.pc == 7 {
      MoveStepSecondReminder(db, t, t');
    } else if t.pc == 8 {
      MoveStepKey(db, t, t');
    }
  }

  // ---------- confirm, decline, PATCH status and the two writes of cancel ----------

  ghost predicate DecideSeen(db: Db, t: Txn, id: Uuid, client: Uuid, to: BookingStatus) {
    t.pc <= 2 &&
    (t.pc >= 1 ==> id in db.bookings && t.booking == Some(db.bookings[id])) &&
    (t.pc == 2 ==> db.bookings[id].client == client && db.bookings[id].status == Booked) &&
    View(db, t) == if t.pc == 2 then SetStatus(db, id, to) else db
  }

  ghost predicate PatchSeen(db: Db, t: Txn, id: Uuid, client: Uuid, to: string) {
    t.pc <= 2 &&
    (t.pc >= 1 ==> id in db.bookings && t.booking == Some(db.bookings[id])) &&
    (t.pc == 2 ==>
      db.bookings[id].client == client && PatchListed(to) && StoredStatus(to).Some? &&
      !RevivalClash(db.bookings, id, StoredStatus(to).value)) &&
    View(db, t) == if t.pc == 2 then SetStatus(db, id, StoredStatus(to).value) else db
  }

  ghost predicate CancelSeen(db: Db, t: Txn, id: Uuid, slot: Uuid) {
    t.pc <= 2 &&
    View(db, t) == if t.pc == 0 then db
                   else if t.pc == 1 then db.(bookings := CancelBookingRow(db.bookings, id))
                   else CancelTail(db, id, slot)
  }

  /** What a transaction of any kind knows of the committed tables at its program counter. */
  ghost predicate Seen(db: Db, t: Txn) {
    match t.call
    case CreateCall(_, _, _, _, _, _) => CreateSeen(db, t)
    case RescheduleCall(_, _, _) => MoveSeen(db, t)
    case ConfirmCall(id, client) => DecideSeen(db, t, id, client, Completed)
    case DeclineCall(id, client) => DecideSeen(db, t, id, client, Cancelled)
    case PatchCall(id, client, to) => PatchSeen(db, t, id, client, to)
    case CancelWrites(id, slot) => CancelSeen(db, t, id, slot)
    case CancelCall(_, _, _, _, _) => t.pc == 0
    case TransitionCall(_, _, _) => t.pc == 0
    case LifecycleCancelCall(_, _, _) => t.pc == 0
  }

  lemma DecideStep(db: Db, t: Txn, t': Txn, id: Uuid, client: Uuid, to: BookingStatus)
    requires (t.call == ConfirmCall(id, client) && to == Completed) ||
             (t.call == DeclineCall(id, client) && to == Cancelled)
    requires DecideSeen(db, t, id, client, to) && Did(Next(t), db, t, t')
    ensures DecideSeen(db, t', id, client, to)
  {
  }

  lemma PatchStep(db: Db, t: Txn, t': Txn)
    requires t.call.PatchCall? && PatchSeen(db, t, t.call.id, t.call.client, t.call.to) && Did(Next(t), db, t, t')
    ensures PatchSeen(db, t', t.call.id, t.call.client, t.call.to)
  {
  }

  lemma CancelStep(db: Db, t: Txn, t': Txn)
    requires t.call.CancelWrites? && CancelSeen(db, t, t.call.id, t.call.slot) && Did(Next(t), db, t, t')
    ensures CancelSeen(db, t', t.call.id, t.call.slot)
  {
  }

  lemma SeenStep(db: Db, t: Txn)
    requires t.call.WellFormed() && Seen(db, t) && Exec(Next, t, db).Some?
    ensures Seen(db, Exec(Next, t, db).value)
  {
    ExecDid(Next, t, db);
    SeenDid(db, t, Exec(Next, t, db).value);
  }

  lemma SeenDid(db: Db, t: Txn, t': Txn)
    requires t.call.WellFormed() && Seen(db, t) && Did(Next(t), db, t, t')
    ensures Seen(db, t')
  {
    match t.call
    case CreateCall(_, _, _, _, _, _) => CreateStep(db, t, t');
    case RescheduleCall(_, _, _) => MoveStep(db, t, t');
    case ConfirmCall(id, client) => DecideStep(db, t, t', id, client, Completed);
    case DeclineCall(id, client) => DecideStep(db, t, t', id, client, Cancelled);
    case PatchCall(_, _, _) => PatchStep(db, t, t');
    case CancelWrites(_, _) => CancelStep(db, t, t');
    case _ =>
  }

  lemma SeenStart(db: Db, call: Call)
    requires call.WellFormed()
    ensures Seen(db, Start(call))
  {
    StartView(db, call);
  }

  /** Each transaction's private state is what its request, run alone on the
      committed tables, would have reached by that statement. */
  lemma SoloSeen(db: Db, call: Call, n: nat)
    requires call.WellFormed() && Solo(Next, db, call, n).Some?
    ensures Seen(db, Solo(Next, db, call, n).value)
    ensures Solo(Next, db, call, n).value.call == call && Solo(Next, db, call, n).value.pc == n
  {
    var seen := (k: nat, t: Txn) => t.call == call && Seen(db, t);
    forall k: nat, t: Txn | seen(k, t) && Alone(Next, db)(t).Some? ensures seen(k + 1, Alone(Next, db)(t).value) {
      ExecCounts(Next, t, db);
      SeenStep(db, t);
    }
    SeenStart(db, call);
    SoloInvariant(Next, db, call, n, seen);
    SoloCounts(Next, db, call, n);
  }

  /** The reschedule's window test, made before its transaction began. */
  predicate PrecheckHolds(db: Db, c: Call)
    requires c.WellFormed()
  {
    c.RescheduleCall? ==> c.move.bookingId in db.bookings && !MoveTooLate(db, c)
  }

  lemma CreateCommits(db: Db, t: Txn)
    requires CreateSeen(db, t) && Next(t).Commit?
    ensures Create(db, t.call) == (View(db, t), Next(t).reply)
  {
  }

  lemma MoveCommits(db: Db, t: Txn)
    requires MoveSeen(db, t) && PrecheckHolds(db, t.call) && Next(t).Commit?
    ensures Reschedule(db, t.call) == (View(db, t), Next(t).reply)
  {
  }

  lemma SeenCommits(db: Db, t: Txn)
    requires t.call.WellFormed() && Seen(db, t) && PrecheckHolds(db, t.call) && Next(t).Commit?
    ensures Apply(db, t.call) == (View(db, t), Next(t).reply)
  {
    match t.call
    case CreateCall(_, _, _, _, _, _) => CreateCommits(db, t);
    case RescheduleCall(_, _, _) => MoveCommits(db, t);
    case _ =>
  }

  /** A transaction that reaches COMMIT alone publishes exactly the atomic request's tables and reply. */
  lemma SoloIsAtomic(db: Db, call: Call, n: nat)
    requires call.WellFormed() && Solo(Next, db, call, n).Some? && PrecheckHolds(db, call)
    requires Next(Solo(Next, db, call, n).value).Commit?
    ensures Apply(db, call) == (View(db, Solo(Next, db, call, n).value), Next(Solo(Next, db, call, n).value).reply)
  {
    var t := Solo(Next, db, call, n).value;
    SoloCounts(Next, db, call, n);
    assert Seen(db, t) by {
      SoloSeen(db, call, n);
    }
    SeenCommits(db, t);
  }

  // ---------- and it always gets there ----------

  /** The atomic request is carried out, not refused and not replayed. */
  predicate CarriedOut(db: Db, c: Call)
    requires c.WellFormed()
  {
    !Apply(db, c).1.Rejected? && !Apply(db, c).1.Replayed?
  }

  /** The statement can be executed on what its transaction sees. */
  predicate Proceeds(db: Db, t: Txn) {
    Next(t).Commit? || Do(Next(t), View(db, t)).Some?
  }

  lemma CreateProceeds(db: Db, t: Txn)
    requires CreateSeen(db, t) && Create(db, t.call).1.Created?
    ensures Proceeds(db, t)
  {
    if 2 <= t.pc <= 3 {
      ClashStays(db.reminders, t.call.newId, 60, t.slot.value.start, t.call.clock60, 1440, t.call.newId);
    }
  }

  lemma MoveProceeds(db: Db, t: Txn)
    requires MoveSeen(db, t) && Reschedule(db, t.call).1.Created?
    ensures Proceeds(db, t)
  {
    var c := t.call;
    if t.pc >= 2 {
      var start := t.slot.value.start;
      ClashStays(db.reminders, c.newId, 1440, start, c.now, 60, c.move.bookingId);
      ClashStays(db.reminders, c.newId, 60, start, c.now, 1440, c.move.bookingId);
      ClashStays(CancelRows(db.reminders, c.move.bookingId), c.newId, 60, start, c.now, 1440, c.newId);
    }
  }

  lemma SeenProceeds(db: Db, t: Txn)
    requires t.call.WellFormed() && Seen(db, t) && CarriedOut(db, t.call)
    requires !t.call.CancelCall? && !t.call.TransitionCall? && !t.call.LifecycleCancelCall?
    ensures Proceeds(db, t)
  {
    match t.call
    case CreateCall(_, _, _, _, _, _) => CreateProceeds(db, t);
    case RescheduleCall(_, _, _) => MoveProceeds(db, t);
    case _ =>
  }

  // ---------- how a failing transaction is answered ----------

  /** The answer when the next statement fails: a ROLLBACK's own reason, else that of a lost compare-and-set or a
      violated constraint. */
  function FailureReason(t: Txn): Reason {
    if Next(t).Rollback? then Next(t).reason
    else if Next(t).SelectForUpdate? then NotFound
    else if t.call.PatchCall? then ConstraintViolation
    else SlotUnavailable
  }

  lemma CreateFails(db: Db, t: Txn)
    requires CreateSeen(db, t) && CreatePrecheck(db, t.call.create).None? && !Proceeds(db, t)
    ensures Create(db, t.call) == (db, Rejected(FailureReason(t)))
  {
    if 2 <= t.pc <= 3 {
      ClashStays(db.reminders, t.call.newId, 60, t.slot.value.start, t.call.clock60, 1440, t.call.newId);
    }
  }

  lemma MoveFails(db: Db, t: Txn)
    requires MoveSeen(db, t) && PrecheckHolds(db, t.call) && !Proceeds(db, t)
    ensures Reschedule(db, t.call) == (db, Rejected(FailureReason(t)))
  {
    var c := t.call;
    if t.pc >= 2 {
      var start := t.slot.value.start;
      ClashStays(db.reminders, c.newId, 1440, start, c.now, 60, c.move.bookingId);
      ClashStays(db.reminders, c.newId, 60, start, c.now, 1440, c.move.bookingId);
      ClashStays(CancelRows(db.reminders, c.move.bookingId), c.newId, 60, start, c.now, 1440, c.newId);
    }
  }

  /** A transaction whose next statement fails is answered as the atomic request would be at that moment; only a
      create whose key has been stored since its pre-check is not. */
  lemma FailsAsAtomic(db: Db, t: Txn)
    requires t.call.WellFormed() && Seen(db, t) && PrecheckHolds(db, t.call) && !Proceeds(db, t)
    requires !t.call.CancelCall? && !t.call.TransitionCall? && !t.call.LifecycleCancelCall?
    requires t.call.CreateCall? ==> CreatePrecheck(db, t.call.create).None?
    ensures Apply(db, t.call) == (db, Rejected(FailureReason(t)))
  {
    match t.call
    case CreateCall(_, _, _, _, _, _) => CreateFails(db, t);
    case RescheduleCall(_, _, _) => MoveFails(db, t);
    case _ =>
  }
}
