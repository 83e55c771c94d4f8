/** The requests as transactions: one statement at a time, writes private until
    commit, every touched row locked until commit or rollback. */
module Transactions {
  import opened Tables
  import opened Requests

  /** What a lock is taken on: a table row, or an entry of the partial unique index on live bookings. */
  datatype Row =
    | SlotRow(slot: Uuid)
    | BookingRow(booking: Uuid)
    | LiveEntry(onSlot: Uuid)
    | ReminderRows(ofBooking: Uuid)
    | KeyEntry(key: KeyId)

  datatype Stmt =
    | SelectForUpdate(b: Uuid)
    | CompareAndSet(s: Uuid, notBefore: int)
    | OpenSlot(s: Uuid)
    | SetBooking(b: Uuid, to: BookingStatus, bump: int)
    | InsertBooking(b: Uuid, row: Booking)
    | CancelReminders(b: Uuid)
    | InsertReminder(b: Uuid, offset: int, fireAt: int)
    | InsertKey(k: KeyId, keyRow: KeyRow)
    | Skip
    | Rollback(reason: Reason)
    | Commit(reply: Reply)

  /** A running transaction: the rows its program has read, its private writes and its locks. */
  datatype Txn = Txn(call: Call, pc: nat, booking: Option<Booking>, slot: Option<Slot>, writes: Db, held: set<Row>)

  const NO_WRITES := Db(map[], map[], map[], map[])

  function Start(call: Call): Txn {
    Txn(call, 0, None, None, NO_WRITES, {})
  }

  function Merge(db: Db, w: Db): Db {
    Db(db.slots + w.slots, db.bookings + w.bookings, db.reminders + w.reminders, db.keys + w.keys)
  }

  /** A transaction reads its own writes over what is committed. */
  function View(db: Db, t: Txn): Db {
    Merge(db, t.writes)
  }

  // ---------- the programs ----------

  function ReminderStmt(b: Uuid, offset: int, start: int, clock: int): Stmt {
    if FireTime(start, offset) > clock then InsertReminder(b, offset, FireTime(start, offset)) else Skip
  }

  function CreateProgram(t: Txn): Stmt
    requires t.call.CreateCall? && t.call.WellFormed()
  {
    var c, r := t.call, t.call.create;
    var start := if t.slot.Some? then t.slot.value.start else 0;
    if t.pc == 0 then CompareAndSet(r.slotId, Max(c.now, c.now + c.notice * MS_PER_HOUR))
    else if t.pc == 1 then InsertBooking(c.newId, Booking(r.slotId, r.clientId, r.timezone, Booked, 1))
    else if t.pc == 2 then ReminderStmt(c.newId, 1440, start, c.clock1440)
    else if t.pc == 3 then ReminderStmt(c.newId, 60, start, c.clock60)
    else if t.pc == 4 then (if HasKey(r.createKey) then InsertKey(CreateKeyId(r), KeyRow(r, c.newId)) else Skip)
    else Commit(Created(c.newId))
  }

  function MoveProgram(t: Txn): Stmt
    requires t.call.RescheduleCall? && t.call.WellFormed()
  {
    var c, r := t.call, t.call.move;
    if t.pc == 0 then SelectForUpdate(r.bookingId)
    else if t.booking.None? then Rollback(NotFound)
    else
      var b := t.booking.value;
      var start := if t.slot.Some? then t.slot.value.start else 0;
      if t.pc == 1 then
        if b.version != r.version || r.ifMatch != b.version then Rollback(VersionMismatch)
        else if b.status != Booked then Rollback(InvalidTransition)
        else CompareAndSet(r.newSlotId, c.now + 1)
      else if t.pc == 2 then SetBooking(r.bookingId, Cancelled, 0)
      else if t.pc == 3 then OpenSlot(b.slot)
      else if t.pc == 4 then InsertBooking(c.newId, MovedBooking(b, r.newSlotId))
      else if t.pc == 5 then CancelReminders(r.bookingId)
      else if t.pc == 6 then ReminderStmt(c.newId, 1440, start, c.now)
      else if t.pc == 7 then ReminderStmt(c.newId, 60, start, c.now)
      else if t.pc == 8 then
        (if HasKey(r.moveKey) then InsertKey(KeyId(b.client, r.moveKey.value), KeyRow(r, c.newId)) else Skip)
      else Commit(Created(c.newId))
  }

  function DecideProgram(t: Txn, id: Uuid, client: Uuid, to: BookingStatus): Stmt {
    if t.pc == 0 then SelectForUpdate(id)
    else if t.booking.None? then Rollback(NotFound)
    else if t.booking.value.client != client then Rollback(Forbidden)
    else if t.booking.value.status != Booked then Rollback(InvalidTransition)
    else if t.pc == 1 then SetBooking(id, to, 1)
    else Commit(Updated(t.booking.value.version + 1))
  }

  function PatchProgram(t: Txn, id: Uuid, client: Uuid, to: string): Stmt {
    if t.pc == 0 then SelectForUpdate(id)
    else if t.booking.None? then Rollback(NotFound)
    else if t.booking.value.client != client then Rollback(Forbidden)
    else if !PatchListed(to) then Rollback(InvalidStatus)
    else if StoredStatus(to).None? then Rollback(ConstraintViolation)
    else if t.pc == 1 then SetBooking(id, StoredStatus(to).value, 1)
    else Commit(Updated(t.booking.value.version + 1))
  }

  function CancelProgram(t: Txn, id: Uuid, slot: Uuid): Stmt {
    if t.pc == 0 then SetBooking(id, Cancelled, 0)
    else if t.pc == 1 then OpenSlot(slot)
    else Commit(NoContent)
  }

  /** The statement a transaction issues next. */
  function Next(t: Txn): Stmt {
    if !t.call.WellFormed() then Rollback(ConstraintViolation)
    else match t.call
    case CreateCall(_, _, _, _, _, _) => CreateProgram(t)
    case RescheduleCall(_, _, _) => MoveProgram(t)
    case ConfirmCall(id, client) => DecideProgram(t, id, client, Completed)
    case DeclineCall(id, client) => DecideProgram(t, id, client, Cancelled)
    case PatchCall(id, client, to) => PatchProgram(t, id, client, to)
    case CancelWrites(id, slot) => CancelProgram(t, id, slot)
    case CancelCall(_, _, _, _, _) => Rollback(ConstraintViolation)
    case TransitionCall(_, _, _) => Rollback(ConstraintViolation)
    case LifecycleCancelCall(_, _, _) => Rollback(ConstraintViolation)
  }

  // ---------- the statements ----------

  predicate SlotFits(v: Db, s: Uuid, notBefore: int) {
    s in v.slots && v.slots[s].status == SlotOpen && v.slots[s].start >= notBefore
  }

  /** The update changes whether the booking is live, so it touches the index. */
  predicate ChangesLive(row: Booking, to: BookingStatus) {
    row.Live() != (to != Cancelled)
  }

  /** The rows a statement must lock.  A guarded WHERE clause that matches no row locks nothing. */
  function Touches(s: Stmt, v: Db): set<Row> {
    match s
    case SelectForUpdate(b) => if b in v.bookings then {BookingRow(b)} else {}
    case CompareAndSet(s, notBefore) => if SlotFits(v, s, notBefore) then {SlotRow(s)} else {}
    case OpenSlot(s) => {SlotRow(s)}
    case SetBooking(b, to, _) =>
      if b in v.bookings && ChangesLive(v.bookings[b], to) then {BookingRow(b), LiveEntry(v.bookings[b].slot)}
      else {BookingRow(b)}
    case InsertBooking(b, row) => {BookingRow(b), LiveEntry(row.slot)}
    case CancelReminders(b) => {ReminderRows(b)}
    case InsertReminder(b, _, _) => {ReminderRows(b)}
    case InsertKey(k, _) => {KeyEntry(k)}
    case Skip => {}
    case Rollback(_) => {}
    case Commit(_) => {}
  }

  /** The rows the statement writes, or `None` when it fails and the transaction rolls back. */
  function Writes(s: Stmt, v: Db): Option<Db> {
    match s
    case SelectForUpdate(b) => if b in v.bookings then Some(NO_WRITES) else None
    case CompareAndSet(s, notBefore) =>
      if SlotFits(v, s, notBefore) then Some(NO_WRITES.(slots := map[s := v.slots[s].(status := SlotBooked)])) else None
    case OpenSlot(s) =>
      Some(if s in v.slots then NO_WRITES.(slots := map[s := v.slots[s].(status := SlotOpen)]) else NO_WRITES)
    case SetBooking(b, to, bump) =>
      if b !in v.bookings then Some(NO_WRITES)
      else if RevivalClash(v.bookings, b, to) then None
      else Some(NO_WRITES.(bookings := map[b := v.bookings[b].(status := to, version := v.bookings[b].version + bump)]))
    case InsertBooking(b, row) =>
      if b in v.bookings || HasLive(v.bookings, row.slot) then None
      else Some(NO_WRITES.(bookings := map[b := row]))
    case CancelReminders(b) =>
      Some(NO_WRITES.(reminders :=
        map r | r in v.reminders && r.booking == b :: v.reminders[r].(status := ReminderCancelled)))
    case InsertReminder(b, offset, fireAt) =>
      if ReminderId(b, offset) in v.reminders then None
      else Some(NO_WRITES.(reminders := map[ReminderId(b, offset) := Reminder(fireAt, Scheduled, 0, None)]))
    case InsertKey(k, row) =>
      if k in v.keys then None else Some(NO_WRITES.(keys := map[k := row]))
    case Skip => Some(NO_WRITES)
    case Rollback(_) => None
    case Commit(_) => None
  }

  /** Programs are given as a function from what a transaction has seen to its next
      statement; everything down to serialisability holds of any of them. */
  type Program = Txn -> Stmt

  function Exec(next: Program, t: Txn, db: Db): Option<Txn> {
    var s, v := next(t), View(db, t);
    var w := Writes(s, v);
    if w.None? then None
    else
      var t1 := t.(pc := t.pc + 1, writes := Merge(t.writes, w.value), held := t.held + Touches(s, v));
      match s
      case SelectForUpdate(b) => Some(t1.(booking := if b in v.bookings then Some(v.bookings[b]) else None))
      case CompareAndSet(s, _) => Some(t1.(slot := if s in v.slots then Some(v.slots[s]) else None))
      case _ => Some(t1)
  }

  /** `n` rounds of `exec`, as long as it succeeds. */
  ghost function Iterate(exec: Txn -> Option<Txn>, start: Txn, n: nat): Option<Txn> {
    if n == 0 then Some(start)
    else
      var t := Iterate(exec, start, n - 1);
      if t.None? then None else exec(t.value)
  }

  ghost predicate Inductive(exec: Txn -> Option<Txn>, holds: (nat, Txn) -> bool) {
    forall k: nat, t: Txn {:trigger holds(k, t), exec(t)} | holds(k, t) && exec(t).Some? :: holds(k + 1, exec(t).value)
  }

  lemma {:induction false} IterateInvariant(exec: Txn -> Option<Txn>, start: Txn, n: nat, holds: (nat, Txn) -> bool)
    requires Inductive(exec, holds) && holds(0, start) && Iterate(exec, start, n).Some?
    ensures holds(n, Iterate(exec, start, n).value)
  {
    if n > 0 {
      IterateInvariant(exec, start, n - 1, holds);
    }
  }

  /** Wherever `exec` leads to an acceptable state, `exec'` leads to the same one, and the state before was
      acceptable. */
  ghost predicate Follows(exec: Txn -> Option<Txn>, exec': Txn -> Option<Txn>, accepts: Txn -> bool) {
    forall t: Txn {:trigger exec(t)} | exec(t).Some? && accepts(exec(t).value) :: exec'(t) == exec(t) && accepts(t)
  }

  lemma {:induction false} IterateFollows(exec: Txn -> Option<Txn>, exec': Txn -> Option<Txn>, start: Txn, n: nat,
                                          accepts: Txn -> bool)
    requires Follows(exec, exec', accepts) && Iterate(exec, start, n).Some? && accepts(Iterate(exec, start, n).value)
    ensures Iterate(exec', start, n) == Iterate(exec, start, n)
  {
    if n > 0 {
      IterateFollows(exec, exec', start, n - 1, accepts);
    }
  }

  ghost function Alone(next: Program, db: Db): Txn -> Option<Txn> {
    (t: Txn) => Exec(next, t, db)
  }

  /** The transaction after its first `n` statements when nothing else runs. */
  ghost function Solo(next: Program, db: Db, call: Call, n: nat): Option<Txn> {
    Iterate(Alone(next, db), Start(call), n)
  }

  /** Something true at the start and kept by every statement is true of every solo run. */
  lemma SoloInvariant(next: Program, db: Db, call: Call, n: nat, holds: (nat, Txn) -> bool)
    requires Inductive(Alone(next, db), holds) && holds(0, Start(call)) && Solo(next, db, call, n).Some?
    ensures holds(n, Solo(next, db, call, n).value)
  {
    IterateInvariant(Alone(next, db), Start(call), n, holds);
  }

  lemma SoloNext(next: Program, db: Db, call: Call, n: nat)
    requires Solo(next, db, call, n).Some?
    ensures Solo(next, db, call, n + 1) == Alone(next, db)(Solo(next, db, call, n).value)
  {
  }

  lemma ExecCounts(next: Program, t: Txn, db: Db)
    requires Exec(next, t, db).Some?
    ensures Exec(next, t, db).value.call == t.call && Exec(next, t, db).value.pc == t.pc + 1
  {
  }

  lemma SoloCounts(next: Program, db: Db, call: Call, n: nat)
    requires Solo(next, db, call, n).Some?
    ensures Solo(next, db, call, n).value.call == call && Solo(next, db, call, n).value.pc == n
  {
    var holds := (k: nat, t: Txn) => t.call == call && t.pc == k;
    forall k: nat, t: Txn | holds(k, t) && Alone(next, db)(t).Some? ensures holds(k + 1, Alone(next, db)(t).value) {
      ExecCounts(next, t, db);
    }
    SoloInvariant(next, db, call, n, holds);
  }

  // ---------- locality: a statement depends only on the rows it locks ----------

  ghost predicate LiveOn(db: Db, b: Uuid, s: Uuid) {
    b in db.bookings && db.bookings[b].slot == s && db.bookings[b].Live()
  }

  ghost predicate SameReminders(db: Db, db': Db, b: Uuid) {
    forall r: ReminderId | r.booking == b ::
      (r in db.reminders <==> r in db'.reminders) && (r in db.reminders ==> db.reminders[r] == db'.reminders[r])
  }

  ghost predicate SameLive(db: Db, db': Db, s: Uuid) {
    forall b :: LiveOn(db, b, s) <==> LiveOn(db', b, s)
  }

  /** The two databases hold the same thing at `row`. */
  ghost predicate Agree(db: Db, db': Db, row: Row) {
    match row
    case SlotRow(s) => (s in db.slots <==> s in db'.slots) && (s in db.slots ==> db.slots[s] == db'.slots[s])
    case BookingRow(b) =>
      (b in db.bookings <==> b in db'.bookings) && (b in db.bookings ==> db.bookings[b] == db'.bookings[b])
    case LiveEntry(s) => SameLive(db, db', s)
    case ReminderRows(b) => SameReminders(db, db', b)
    case KeyEntry(k) => (k in db.keys <==> k in db'.keys) && (k in db.keys ==> db.keys[k] == db'.keys[k])
  }

  ghost predicate AgreeAll(db: Db, db': Db, rows: set<Row>) {
    forall row | row in rows :: Agree(db, db', row)
  }

  lemma HasLiveFromEntry(v: Db, v': Db, s: Uuid)
    requires SameLive(v, v', s)
    ensures HasLive(v.bookings, s) == HasLive(v'.bookings, s)
  {
    if HasLive(v.bookings, s) {
      var b :| b in v.bookings && v.bookings[b].slot == s && v.bookings[b].Live();
      assert LiveOn(v, b, s);
    }
    if HasLive(v'.bookings, s) {
      var b :| b in v'.bookings && v'.bookings[b].slot == s && v'.bookings[b].Live();
      assert LiveOn(v', b, s);
    }
  }

  /** Private writes on top keep agreement on a row whose reminders and index entry they respect. */
  lemma AgreeUnderWrites(db: Db, db': Db, w: Db, row: Row)
    requires Agree(db, db', row)
    ensures Agree(Merge(db, w), Merge(db', w), row)
  {
    if row.LiveEntry? {
      forall b ensures LiveOn(Merge(db, w), b, row.onSlot) <==> LiveOn(Merge(db', w), b, row.onSlot) {
        assert LiveOn(db, b, row.onSlot) <==> LiveOn(db', b, row.onSlot);
      }
    }
  }

  lemma StmtLocal(s: Stmt, v: Db, v': Db)
    requires Writes(s, v).Some?
    requires AgreeAll(v, v', Touches(s, v))
    ensures Touches(s, v') == Touches(s, v)
    ensures Writes(s, v') == Writes(s, v)
  {
    match s
    case SelectForUpdate(b) => assert Agree(v, v', BookingRow(b));
    case CompareAndSet(x, _) => assert Agree(v, v', SlotRow(x));
    case OpenSlot(x) => assert Agree(v, v', SlotRow(x));
    case SetBooking(b, to, _) =>
      assert Agree(v, v', BookingRow(b));
      if b in v.bookings && ChangesLive(v.bookings[b], to) {
        assert Agree(v, v', LiveEntry(v.bookings[b].slot));
        HasLiveFromEntry(v, v', v.bookings[b].slot);
      }
    case InsertBooking(b, row) =>
      assert Agree(v, v', BookingRow(b)) && Agree(v, v', LiveEntry(row.slot));
      HasLiveFromEntry(v, v', row.slot);
    case CancelReminders(b) =>
      assert Agree(v, v', ReminderRows(b));
      var w, w' := Writes(s, v).value.reminders, Writes(s, v').value.reminders;
      assert forall r: ReminderId | r.booking == b :: r in w <==> r in w';
      assert w == w';
    case InsertReminder(b, offset, _) =>
      assert Agree(v, v', ReminderRows(b));
      assert ReminderId(b, offset).booking == b;
    case InsertKey(k, _) => assert Agree(v, v', KeyEntry(k));
    case Skip =>
    case Rollback(_) =>
    case Commit(_) =>
  }

  lemma ExecLocal(next: Program, t: Txn, db: Db, db': Db)
    requires Exec(next, t, db).Some? && AgreeAll(db, db', Exec(next, t, db).value.held)
    ensures Exec(next, t, db') == Exec(next, t, db)
    ensures AgreeAll(db, db', t.held)
  {
    var s := next(t);
    assert t.held + Touches(s, View(db, t)) == Exec(next, t, db).value.held;
    forall row | row in Touches(s, View(db, t)) ensures Agree(View(db, t), View(db', t), row) {
      AgreeUnderWrites(db, db', t.writes, row);
    }
    StmtLocal(s, View(db, t), View(db', t));
    match s
    case SelectForUpdate(b) => assert Agree(View(db, t), View(db', t), BookingRow(b));
    case CompareAndSet(x, _) => assert Agree(View(db, t), View(db', t), SlotRow(x));
    case _ =>
  }

  /** What a transaction has done so far is what it would have done alone on any
      database that agrees on the rows it holds. */
  lemma SoloFrame(next: Program, db: Db, db': Db, call: Call, n: nat)
    requires Solo(next, db, call, n).Some? && AgreeAll(db, db', Solo(next, db, call, n).value.held)
    ensures Solo(next, db', call, n) == Solo(next, db, call, n)
  {
    var agrees := (t: Txn) => AgreeAll(db, db', t.held);
    forall t: Txn {:trigger Alone(next, db)(t)} | Alone(next, db)(t).Some? && agrees(Alone(next, db)(t).value)
      ensures Alone(next, db')(t) == Alone(next, db)(t) && agrees(t)
    {
      ExecLocal(next, t, db, db');
    }
    IterateFollows(Alone(next, db), Alone(next, db'), Start(call), n, agrees);
  }

  // ---------- coverage: a transaction writes only rows it holds ----------

  /** The slot writes change the status of existing slots only. */
  ghost predicate SlotWritesHeld(db: Db, w: Slots, held: set<Row>) {
    forall s | s in w :: SlotRow(s) in held && s in db.slots && w[s].(status := db.slots[s].status) == db.slots[s]
  }

  /** Booking writes hold the row, never move an existing booking to another slot,
      and hold the index entry whenever they change which bookings are live. */
  ghost predicate BookingWritesHeld(db: Db, w: Bookings, held: set<Row>) {
    forall b | b in w ::
      BookingRow(b) in held &&
      (b in db.bookings ==> w[b].slot == db.bookings[b].slot) &&
      ((b in db.bookings && w[b].Live() == db.bookings[b].Live()) || LiveEntry(w[b].slot) in held)
  }

  ghost predicate Covered(db: Db, w: Db, held: set<Row>) {
    SlotWritesHeld(db, w.slots, held) &&
    BookingWritesHeld(db, w.bookings, held) &&
    (forall r: ReminderId | r in w.reminders :: ReminderRows(r.booking) in held) &&
    (forall k | k in w.keys :: KeyEntry(k) in held)
  }

  lemma StmtCovered(s: Stmt, v: Db)
    requires Writes(s, v).Some?
    ensures Covered(v, Writes(s, v).value, Touches(s, v))
  {
  }

  lemma CoveredMerge(db: Db, w: Db, held: set<Row>, w': Db, held': set<Row>)
    requires Covered(db, w, held) && Covered(Merge(db, w), w', held')
    ensures Covered(db, Merge(w, w'), held + held')
  {
    var v, ww, all := Merge(db, w), Merge(w, w'), held + held';
    forall s | s in ww.slots
      ensures SlotRow(s) in all && s in db.slots && ww.slots[s].(status := db.slots[s].status) == db.slots[s]
    {
      if s in w'.slots { assert s in v.slots; }
    }
    forall b | b in ww.bookings
      ensures BookingRow(b) in all
      ensures b in db.bookings ==> ww.bookings[b].slot == db.bookings[b].slot
      ensures (b in db.bookings && ww.bookings[b].Live() == db.bookings[b].Live()) ||
              LiveEntry(ww.bookings[b].slot) in all
    {
      if b in w'.bookings { assert b in db.bookings ==> b in v.bookings; }
    }
  }

  lemma ExecCovered(next: Program, t: Txn, db: Db)
    requires Covered(db, t.writes, t.held) && Exec(next, t, db).Some?
    ensures Covered(db, Exec(next, t, db).value.writes, Exec(next, t, db).value.held)
  {
    var s, v := next(t), View(db, t);
    StmtCovered(s, v);
    CoveredMerge(db, t.writes, t.held, Writes(s, v).value, Touches(s, v));
  }

  lemma SoloCovered(next: Program, db: Db, call: Call, n: nat)
    requires Solo(next, db, call, n).Some?
    ensures Covered(db, Solo(next, db, call, n).value.writes, Solo(next, db, call, n).value.held)
  {
    var covered := (k: nat, t: Txn) => Covered(db, t.writes, t.held);
    forall k: nat, t: Txn | covered(k, t) && Alone(next, db)(t).Some? ensures covered(k + 1, Alone(next, db)(t).value) {
      ExecCovered(next, t, db);
    }
    SoloInvariant(next, db, call, n, covered);
  }

  /** Committing leaves every row the transaction did not hold as it was. */
  lemma CommitLocal(db: Db, w: Db, held: set<Row>, row: Row)
    requires Covered(db, w, held) && row !in held
    ensures Agree(db, Merge(db, w), row)
  {
    if row.LiveEntry? {
      forall b ensures LiveOn(db, b, row.onSlot) <==> LiveOn(Merge(db, w), b, row.onSlot) {
      }
    }
  }
}
