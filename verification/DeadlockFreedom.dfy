/** Transactions never wait for each other in a cycle while live bookings sit on slots marked booked. */
module DeadlockFreedom {
  import opened Tables
  import opened Requests
  import opened Transactions
  import opened Programs
  import opened Interleaving
  import opened SlotExclusivity

  /** The slot a transaction won by its compare-and-set. */
  predicate Takes(t: Txn, x: Uuid) {
    (t.call.CreateCall? && t.call.WellFormed() && t.pc >= 1 && x == t.call.create.slotId) ||
    (t.call.RescheduleCall? && t.call.WellFormed() && t.pc >= 2 && x == t.call.move.newSlotId)
  }

  /** The existing booking a transaction works on. */
  function Subject(c: Call): Option<Uuid>
    requires c.WellFormed()
  {
    match c
    case RescheduleCall(_, _, _) => Some(c.move.bookingId)
    case ConfirmCall(id, _) => Some(id)
    case DeclineCall(id, _) => Some(id)
    case PatchCall(id, _, _) => Some(id)
    case CancelWrites(id, _) => Some(id)
    case _ => None
  }

  /** The slot of the live booking a transaction has locked. */
  predicate Leaves(db: Db, t: Txn, x: Uuid)
    requires t.call.WellFormed()
  {
    t.pc >= 1 && Subject(t.call).Some? && Subject(t.call).value in db.bookings &&
    db.bookings[Subject(t.call).value].Live() && db.bookings[Subject(t.call).value].slot == x
  }

  predicate Claims(db: Db, t: Txn, x: Uuid)
    requires t.call.WellFormed()
  {
    Takes(t, x) || Leaves(db, t, x)
  }

  /** The transaction is past its first statement and `b` is a booking it changes. */
  predicate Works(t: Txn, b: Uuid)
    requires t.call.WellFormed()
  {
    t.pc >= 1 && (b in NewIds(t.call) || Subject(t.call) == Some(b))
  }

  /** How far a transaction is from its last wait. */
  function Rank(t: Txn): nat {
    if t.pc == 0 then 4
    else if t.call.CreateCall? then (if t.pc <= 4 then 1 else 0)
    else if t.call.RescheduleCall? then (if t.pc == 1 then 2 else if t.pc <= 8 then 1 else 0)
    else if t.pc >= 2 then 0
    else if t.call.PatchCall? then 3
    else if t.call.CancelWrites? then 2
    else 1
  }

  /** PATCH and the writes of cancel may hold an index entry or a slot they have no claim on, but only
      when nothing is left to wait for. */
  predicate DoneUnlocked(t: Txn) {
    (t.call.PatchCall? || t.call.CancelWrites?) && Rank(t) == 0
  }

  /** What holding a row says about the transaction. */
  ghost predicate HoldsOnly(db: Db, t: Txn, row: Row)
    requires t.call.WellFormed()
  {
    match row
    case SlotRow(x) => Rank(t) <= 1 && (Claims(db, t, x) || DoneUnlocked(t))
    case BookingRow(b) => Rank(t) <= 3 && Works(t, b)
    case LiveEntry(x) => Rank(t) <= 2 && (Claims(db, t, x) || DoneUnlocked(t))
    case ReminderRows(b) => Rank(t) <= 1 && Works(t, b)
    case KeyEntry(_) => Rank(t) == 0
  }

  /** What a transaction certainly holds. */
  ghost predicate HoldsThese(t: Txn)
    requires t.call.WellFormed()
  {
    (t.pc >= 1 && Subject(t.call).Some? ==> BookingRow(Subject(t.call).value) in t.held) &&
    (forall x | Takes(t, x) :: SlotRow(x) in t.held)
  }

  ghost predicate Locks(db: Db, t: Txn) {
    IsProgram(t.call) && Seen(db, t) && HoldsThese(t) && forall row | row in t.held :: HoldsOnly(db, t, row)
  }

  lemma OldRow(db: Db, t: Txn, t': Txn, row: Row)
    requires t.call.WellFormed() && t'.call == t.call && t'.pc == t.pc + 1 && HoldsOnly(db, t, row)
    ensures HoldsOnly(db, t', row)
  {
  }

  lemma CreateNewRow(db: Db, t: Txn, t': Txn, row: Row)
    requires t.call.CreateCall? && t.call.WellFormed() && Seen(db, t) && t'.call == t.call && t'.pc == t.pc + 1
    requires row in Touches(Next(t), View(db, t))
    ensures HoldsOnly(db, t', row)
  {
  }

  lemma MoveNewRowEarly(db: Db, t: Txn, t': Txn, row: Row)
    requires t.call.RescheduleCall? && t.call.WellFormed() && MoveSeen(db, t) && t.pc <= 3
    requires t'.call == t.call && t'.pc == t.pc + 1 && row in Touches(Next(t), View(db, t))
    ensures HoldsOnly(db, t', row)
  {
  }

  lemma MoveNewRowLate(db: Db, t: Txn, t': Txn, row: Row, v: Db)
    requires t.call.RescheduleCall? && t.call.WellFormed() && t.pc >= 4
    requires t'.call == t.call && t'.pc == t.pc + 1 && row in Touches(Next(t), v)
    ensures HoldsOnly(db, t', row)
  {
  }

  lemma DecideNewRow(db: Db, t: Txn, t': Txn, row: Row)
    requires (t.call.ConfirmCall? || t.call.DeclineCall?) && Seen(db, t)
    requires t'.call == t.call && t'.pc == t.pc + 1 && row in Touches(Next(t), View(db, t))
    ensures HoldsOnly(db, t', row)
  {
  }

  lemma UnlockedNewRow(db: Db, t: Txn, t': Txn, row: Row)
    requires (t.call.PatchCall? || t.call.CancelWrites?) && Seen(db, t)
    requires t'.call == t.call && t'.pc == t.pc + 1 && row in Touches(Next(t), View(db, t))
    ensures HoldsOnly(db, t', row)
  {
  }

  lemma NewRow(db: Db, t: Txn, t': Txn, row: Row)
    requires IsProgram(t.call) && Seen(db, t) && t'.call == t.call && t'.pc == t.pc + 1
    requires row in Touches(Next(t), View(db, t))
    ensures HoldsOnly(db, t', row)
  {
    if t.call.CreateCall? {
      CreateNewRow(db, t, t', row);
    } else if t.call.RescheduleCall? && t.pc <= 3 {
      MoveNewRowEarly(db, t, t', row);
    } else if t.call.RescheduleCall? {
      MoveNewRowLate(db, t, t', row, View(db, t));
    } else if t.call.ConfirmCall? || t.call.DeclineCall? {
      DecideNewRow(db, t, t', row);
    } else {
      UnlockedNewRow(db, t, t', row);
    }
  }

  /** The first statement locks the booking, and a won compare-and-set the slot. */
  lemma FirstLocks(t: Txn, v: Db)
    requires IsProgram(t.call) && Do(Next(t), v).Some?
    ensures t.pc == 0 && Subject(t.call).Some? ==> BookingRow(Subject(t.call).value) in Touches(Next(t), v)
    ensures t.pc == 0 && t.call.CreateCall? ==> SlotRow(t.call.create.slotId) in Touches(Next(t), v)
    ensures t.pc == 1 && t.call.RescheduleCall? ==> SlotRow(t.call.move.newSlotId) in Touches(Next(t), v)
  {
  }

  lemma StillHolds(t: Txn, t': Txn, v: Db)
    requires IsProgram(t.call) && HoldsThese(t) && Do(Next(t), v).Some?
    requires t'.call == t.call && t'.pc == t.pc + 1 && t'.held == t.held + Touches(Next(t), v)
    ensures HoldsThese(t')
  {
    FirstLocks(t, v);
    forall x | Takes(t', x) ensures SlotRow(x) in t'.held {
      if Takes(t, x) {
        assert SlotRow(x) in t.held;
      }
    }
  }

  lemma LocksStep(db: Db, t: Txn)
    requires Locks(db, t) && Exec(Next, t, db).Some?
    ensures Locks(db, Exec(Next, t, db).value)
  {
    var t' := Exec(Next, t, db).value;
    SeenStep(db, t);
    ExecHeld(Next, t, db);
    ExecDid(Next, t, db);
    StillHolds(t, t', View(db, t));
    forall row | row in t'.held ensures HoldsOnly(db, t', row) {
      if row in t.held {
        OldRow(db, t, t', row);
      } else {
        NewRow(db, t, t', row);
      }
    }
  }

  lemma SoloLocks(db: Db, call: Call, n: nat)
    requires IsProgram(call) && Solo(Next, db, call, n).Some?
    ensures Locks(db, Solo(Next, db, call, n).value)
  {
    var locks := (k: nat, t: Txn) => t.call == call && Locks(db, t);
    forall k: nat, t: Txn | locks(k, t) && Alone(Next, db)(t).Some? ensures locks(k + 1, Alone(Next, db)(t).value) {
      ExecCounts(Next, t, db);
      LocksStep(db, t);
    }
    SeenStart(db, call);
    SoloInvariant(Next, db, call, n, locks);
  }

  // ---------- fresh ids and stored subjects ----------

  /** The id is not in use, and no transaction but `t` will give it to a booking. */
  ghost predicate OwnId(s: Sys, t: nat, id: Uuid) {
    id !in s.db.bookings && forall u | u in s.active && u != t :: id !in NewIds(s.active[u].call)
  }

  /** The id a running transaction will give its booking is nobody else's. */
  ghost predicate Fresh(s: Sys) {
    forall t, id | t in s.active && id in NewIds(s.active[t].call) :: OwnId(s, t, id)
  }

  /** Running transactions are programs, and a running cancel's booking exists. */
  ghost predicate OnlyPrograms(s: Sys) {
    forall t | t in s.active ::
      IsProgram(s.active[t].call) && (s.active[t].call.CancelWrites? ==> s.active[t].call.id in s.db.bookings)
  }

  lemma CommitAddsOwn(db: Db, t: Txn)
    requires IsProgram(t.call) && Seen(db, t) && Next(t).Commit?
    ensures View(db, t).bookings.Keys <= db.bookings.Keys + NewIds(t.call)
  {
  }

  lemma BeginFresh(s: Sys, tx: nat, c: Call, s': Sys)
    requires Fresh(s) && tx !in s.active && c.WellFormed() && FreshIds(s, c) && Admitted(s.db, c).Some?
    requires s' == s.(active := s.active[tx := Start(Admitted(s.db, c).value)])
    ensures Fresh(s')
  {
    var admitted := Admitted(s.db, c).value;
    assert NewIds(admitted) <= NewIds(c);
    forall t, id | t in s'.active && id in NewIds(s'.active[t].call) ensures OwnId(s', t, id) {
      if t == tx {
        assert id in NewIds(c);
        forall u | u in s'.active && u != t ensures id !in NewIds(s'.active[u].call) {
          assert u in s.active && s'.active[u] == s.active[u];
        }
      } else {
        assert t in s.active && s'.active[t] == s.active[t] && OwnId(s, t, id);
        forall u | u in s'.active && u != t ensures id !in NewIds(s'.active[u].call) {
          if u == tx {
            assert id in NewIds(admitted) ==> id in NewIds(c);
          } else {
            assert u in s.active && s'.active[u] == s.active[u];
          }
        }
      }
    }
  }

  lemma AdvanceFresh(s: Sys, tx: nat, t': Txn, s': Sys)
    requires Fresh(s) && tx in s.active && t'.call == s.active[tx].call && s' == s.(active := s.active[tx := t'])
    ensures Fresh(s')
  {
    forall t, id | t in s'.active && id in NewIds(s'.active[t].call) ensures OwnId(s', t, id) {
      assert t in s.active && s'.active[t].call == s.active[t].call && OwnId(s, t, id);
      forall u | u in s'.active && u != t ensures id !in NewIds(s'.active[u].call) {
        assert u in s.active && s'.active[u].call == s.active[u].call;
      }
    }
  }

  /** Leaving transactions, committed or not, take their ids with them. */
  lemma FinishFresh(s: Sys, tx: nat, s': Sys)
    requires Fresh(s) && s'.active == s.active - {tx}
    requires s'.db.bookings.Keys <= s.db.bookings.Keys + if tx in s.active then NewIds(s.active[tx].call) else {}
    ensures Fresh(s')
  {
    forall t, id | t in s'.active && id in NewIds(s'.active[t].call) ensures OwnId(s', t, id) {
      assert t in s.active && s'.active[t] == s.active[t] && OwnId(s, t, id);
      forall u | u in s'.active && u != t ensures id !in NewIds(s'.active[u].call) {
        assert u in s.active && s'.active[u] == s.active[u];
      }
    }
  }

  /** Whatever the program, if a step keeps its transaction's call and a commit adds only its own id. */
  lemma StepFreshOf(next: Program, s: Sys, a: Action, s': Sys)
    requires Fresh(s) && Step(next, s, a) == Some(s')
    requires a.Advance? && Exec(next, s.active[a.tx], s.db).Some? ==>
               Exec(next, s.active[a.tx], s.db).value.call == s.active[a.tx].call
    requires a.Advance? && next(s.active[a.tx]).Commit? ==>
               View(s.db, s.active[a.tx]).bookings.Keys <= s.db.bookings.Keys + NewIds(s.active[a.tx].call)
    ensures Fresh(s')
  {
    match a
    case Begin(tx, c) => if Admitted(s.db, c).Some? { BeginFresh(s, tx, c, s'); }
    case Crash(tx) => FinishFresh(s, tx, s');
    case Advance(tx) =>
      if next(s.active[tx]).Commit? {
        FinishFresh(s, tx, s');
      } else if Exec(next, s.active[tx], s.db).Some? {
        AdvanceFresh(s, tx, Exec(next, s.active[tx], s.db).value, s');
      } else {
        FinishFresh(s, tx, s');
      }
  }

  lemma StepFresh(s: Sys, a: Action)
    requires Inv(Next, s) && OnlyPrograms(s) && Fresh(s) && Step(Next, s, a).Some?
    ensures Fresh(Step(Next, s, a).value)
  {
    if a.Advance? {
      var t := s.active[a.tx];
      if Next(t).Commit? {
        SoloSeen(s.db, t.call, t.pc);
        CommitAddsOwn(s.db, t);
      }
      if Exec(Next, t, s.db).Some? {
        ExecCounts(Next, t, s.db);
      }
    }
    StepFreshOf(Next, s, a, Step(Next, s, a).value);
  }

  lemma StepPrograms(next: Program, s: Sys, a: Action)
    requires OnlyPrograms(s) && Step(next, s, a).Some?
    requires a.Advance? && Exec(next, s.active[a.tx], s.db).Some? ==>
               Exec(next, s.active[a.tx], s.db).value.call == s.active[a.tx].call
    ensures OnlyPrograms(Step(next, s, a).value)
  {
    var s' := Step(next, s, a).value;
    assert s.db.bookings.Keys <= s'.db.bookings.Keys;
    forall t | t in s'.active
      ensures IsProgram(s'.active[t].call)
      ensures s'.active[t].call.CancelWrites? ==> s'.active[t].call.id in s'.db.bookings
    {
      if t in s.active {
        assert s'.active[t].call == s.active[t].call;
      } else {
        assert a.Begin? && Admitted(s.db, a.call) == Some(s'.active[t].call);
      }
    }
  }

  lemma {:induction false} RunFresh(db: Db, actions: seq<Action>)
    requires Run(Next, Initial(db), actions).Some?
    ensures Fresh(Run(Next, Initial(db), actions).value) && OnlyPrograms(Run(Next, Initial(db), actions).value)
  {
    if actions != [] {
      var before, a := actions[..|actions| - 1], actions[|actions| - 1];
      RunFresh(db, before);
      Serialisable(db, before);
      var s := Run(Next, Initial(db), before).value;
      StepFresh(s, a);
      if a.Advance? && Exec(Next, s.active[a.tx], s.db).Some? {
        ExecCounts(Next, s.active[a.tx], s.db);
      }
      StepPrograms(Next, s, a);
    }
  }

  // ---------- waiting ----------

  /** `t`'s next statement needs a row that `u` holds. */
  predicate Waits(s: Sys, t: nat, u: nat) {
    t in s.active && u in s.active && t != u && !(s.active[u].held !! Wanted(Next, s, t))
  }

  /** What every reachable state satisfies whose committed live bookings sit on slots marked booked. */
  ghost predicate Good(s: Sys) {
    LocksDisjoint(s) && Exclusive(s.db) && Fresh(s) && OnlyPrograms(s) &&
    forall t | t in s.active :: Locks(s.db, s.active[t])
  }

  lemma Reachable(db: Db, actions: seq<Action>)
    requires Run(Next, Initial(db), actions).Some? && Exclusive(Run(Next, Initial(db), actions).value.db)
    ensures Good(Run(Next, Initial(db), actions).value)
  {
    var s := Run(Next, Initial(db), actions).value;
    Serialisable(db, actions);
    RunFresh(db, actions);
    forall t | t in s.active ensures Locks(s.db, s.active[t]) {
      assert Undisturbed(Next, s.db, s.active[t]);
      SoloLocks(s.db, s.active[t].call, s.active[t].pc);
    }
  }

  /** A slot won by a compare-and-set is still open in the committed tables. */
  lemma TakenIsOpen(db: Db, t: Txn, x: Uuid)
    requires Locks(db, t) && Takes(t, x)
    ensures x in db.slots && db.slots[x].status == SlotOpen && SlotRow(x) in t.held
  {
  }

  /** No two transactions claim one slot: that is where slot exclusivity keeps
      a reschedule from ever waiting for the slot it gives back. */
  lemma ClaimsExclusive(s: Sys, t: nat, u: nat, x: Uuid)
    requires Good(s) && t in s.active && u in s.active && t != u
    ensures !(Claims(s.db, s.active[t], x) && Claims(s.db, s.active[u], x))
  {
    var a, b := s.active[t], s.active[u];
    assert Locks(s.db, a) && Locks(s.db, b) && a.held !! b.held;
    if Takes(a, x) { TakenIsOpen(s.db, a, x); }
    if Takes(b, x) { TakenIsOpen(s.db, b, x); }
  }

  /** The rows a statement asks for. */
  ghost predicate WantsOnly(db: Db, t: Txn, row: Row)
    requires t.call.WellFormed()
  {
    Rank(t) >= 1 &&
    match row
    case SlotRow(x) => Rank(t) >= 2 || Claims(db, t, x)
    case BookingRow(b) => Rank(t) == 4 || b in NewIds(t.call) || row in t.held
    case LiveEntry(x) => Rank(t) >= 3 || Claims(db, t, x)
    case ReminderRows(b) => b in NewIds(t.call) || (t.pc >= 1 && Subject(t.call) == Some(b))
    case KeyEntry(_) => Rank(t) == 1
  }

  lemma CreateWants(db: Db, t: Txn, row: Row)
    requires t.call.CreateCall? && Locks(db, t) && row in Touches(Next(t), View(db, t))
    ensures WantsOnly(db, t, row)
  {
  }

  lemma MoveWantsEarly(db: Db, t: Txn, row: Row)
    requires t.call.RescheduleCall? && t.call.WellFormed() && MoveSeen(db, t) && t.pc <= 3
    requires HoldsThese(t) && row in Touches(Next(t), View(db, t))
    ensures WantsOnly(db, t, row)
  {
  }

  lemma MoveWantsLate(db: Db, t: Txn, row: Row, v: Db)
    requires t.call.RescheduleCall? && t.call.WellFormed() && t.pc >= 4
    requires HoldsThese(t) && row in Touches(Next(t), v)
    ensures WantsOnly(db, t, row)
  {
  }

  lemma OtherWants(db: Db, t: Txn, row: Row)
    requires !t.call.CreateCall? && !t.call.RescheduleCall? && Locks(db, t) && row in Touches(Next(t), View(db, t))
    ensures WantsOnly(db, t, row)
  {
  }

  lemma Wants(db: Db, t: Txn, row: Row)
    requires Locks(db, t) && row in Touches(Next(t), View(db, t))
    ensures WantsOnly(db, t, row)
  {
    if t.call.CreateCall? {
      CreateWants(db, t, row);
    } else if t.call.RescheduleCall? && t.pc <= 3 {
      MoveWantsEarly(db, t, row);
    } else if t.call.RescheduleCall? {
      MoveWantsLate(db, t, row, View(db, t));
    } else {
      OtherWants(db, t, row);
    }
  }

  lemma SubjectStored(s: Sys, t: nat)
    requires Good(s) && t in s.active && s.active[t].pc >= 1 && Subject(s.active[t].call).Some?
    ensures Subject(s.active[t].call).value in s.db.bookings
  {
    assert Locks(s.db, s.active[t]);
  }

  /** A booking one transaction works on is not the one another is about to insert. */
  lemma WorkNotFresh(s: Sys, t: nat, u: nat, b: Uuid)
    requires Good(s) && t in s.active && u in s.active && t != u && IsProgram(s.active[u].call)
    requires Works(s.active[u], b)
    ensures b !in NewIds(s.active[t].call)
  {
    if b in NewIds(s.active[t].call) {
      assert OwnId(s, t, b);
      if Subject(s.active[u].call) == Some(b) {
        SubjectStored(s, u);
      }
    }
  }

  /** Two transactions past their first statements do not work on one booking. */
  lemma WorksApart(s: Sys, t: nat, u: nat, b: Uuid)
    requires Good(s) && t in s.active && u in s.active && t != u
    requires IsProgram(s.active[t].call) && IsProgram(s.active[u].call)
    ensures !(Works(s.active[t], b) && Works(s.active[u], b))
  {
    var x, y := s.active[t], s.active[u];
    assert Locks(s.db, x) && Locks(s.db, y) && x.held !! y.held;
    if Works(y, b) { WorkNotFresh(s, t, u, b); }
    if Works(x, b) { WorkNotFresh(s, u, t, b); }
  }

  /** Waiting always points from a higher rank to a lower one. */
  lemma WaitsDown(s: Sys, t: nat, u: nat)
    requires Good(s) && Waits(s, t, u)
    ensures Rank(s.active[u]) < Rank(s.active[t])
  {
    var a, b := s.active[t], s.active[u];
    var row :| row in b.held && row in Wanted(Next, s, t);
    assert Locks(s.db, a) && Locks(s.db, b) && a.held !! b.held;
    Wants(s.db, a, row);
    RowFallsDown(s, t, u, row);
  }

  lemma RowFallsDown(s: Sys, t: nat, u: nat, row: Row)
    requires Good(s) && t in s.active && u in s.active && t != u
    requires IsProgram(s.active[t].call) && IsProgram(s.active[u].call)
    requires WantsOnly(s.db, s.active[t], row) && HoldsOnly(s.db, s.active[u], row) && row !in s.active[t].held
    ensures Rank(s.active[u]) < Rank(s.active[t])
  {
    match row
    case SlotRow(x) => ClaimsExclusive(s, t, u, x);
    case LiveEntry(x) => ClaimsExclusive(s, t, u, x);
    case KeyEntry(_) =>
    case BookingRow(x) => WorkNotFresh(s, t, u, x);
    case ReminderRows(x) =>
      WorkNotFresh(s, t, u, x);
      WorksApart(s, t, u, x);
  }

  // ---------- the theorems ----------

  /** A chain of transactions each waiting for the next. */
  ghost predicate WaitChain(s: Sys, chain: seq<nat>) {
    |chain| >= 2 && forall i | 0 <= i < |chain| - 1 :: Waits(s, chain[i], chain[i + 1])
  }

  predicate Falls(rank: map<nat, nat>, t: nat, u: nat) {
    t in rank && u in rank && rank[u] < rank[t]
  }

  /** Whatever falls along every link of a chain falls from its head to its end. */
  lemma {:induction false} FallsAlong(rank: map<nat, nat>, chain: seq<nat>)
    requires |chain| >= 2
    requires forall i | 0 <= i < |chain| - 1 :: Falls(rank, chain[i], chain[i + 1])
    ensures Falls(rank, chain[0], chain[|chain| - 1])
  {
    assert Falls(rank, chain[0], chain[0 + 1]);
    if |chain| > 2 {
      FallsAlong(rank, chain[1..]);
    }
  }

  lemma ChainDescends(s: Sys, chain: seq<nat>)
    requires Good(s) && WaitChain(s, chain)
    ensures chain[0] in s.active && chain[|chain| - 1] in s.active
    ensures Rank(s.active[chain[|chain| - 1]]) < Rank(s.active[chain[0]])
  {
    var rank := map t | t in s.active :: Rank(s.active[t]);
    forall i | 0 <= i < |chain| - 1 ensures Falls(rank, chain[i], chain[i + 1]) {
      LinkFalls(s, chain[i], chain[i + 1]);
    }
    FallsAlong(rank, chain);
  }

  lemma LinkFalls(s: Sys, t: nat, u: nat)
    requires Good(s) && Waits(s, t, u)
    ensures t in s.active && u in s.active && Rank(s.active[u]) < Rank(s.active[t])
  {
    WaitsDown(s, t, u);
  }

  /** Deadlock freedom of all the transactions, PATCH status and the writes of cancel included: in no reachable
      state whose committed live bookings sit on slots marked booked do any of them wait in a cycle. */
  lemma NoWaitCycleWhileExclusive(db: Db, actions: seq<Action>, chain: seq<nat>)
    requires Run(Next, Initial(db), actions).Some? && Exclusive(Run(Next, Initial(db), actions).value.db)
    requires WaitChain(Run(Next, Initial(db), actions).value, chain)
    ensures chain[0] != chain[|chain| - 1]
  {
    Reachable(db, actions);
    ChainDescends(Run(Next, Initial(db), actions).value, chain);
  }

  /** Of create, reschedule, confirm and decline that condition is a theorem: they never wait in a cycle. */
  lemma NoWaitCycle(db: Db, actions: seq<Action>, chain: seq<nat>)
    requires Exclusive(db) && AllLocking(actions) && Run(Next, Initial(db), actions).Some?
    requires WaitChain(Run(Next, Initial(db), actions).value, chain)
    ensures chain[0] != chain[|chain| - 1]
  {
    NoDoubleBookingInterleaved(db, actions);
    NoWaitCycleWhileExclusive(db, actions, chain);
  }

  lemma NotWaitingForKey(db: Db, t: Txn, row: Row)
    requires t.call.RescheduleCall? && Locks(db, t) && 2 <= t.pc <= 7 && row in Touches(Next(t), View(db, t))
    ensures !row.KeyEntry?
  {
  }

  /** A row a reschedule wants after its compare-and-set and before its key is held by no one else. */
  lemma WantedRowFree(s: Sys, t: nat, u: nat, row: Row)
    requires Good(s) && OnlyLocking(s) && t in s.active && u in s.active && t != u
    requires s.active[t].call.RescheduleCall? && 2 <= s.active[t].pc <= 7 && row in Wanted(Next, s, t)
    ensures row !in s.active[u].held
  {
    var a, b := s.active[t], s.active[u];
    assert Locks(s.db, a) && Locks(s.db, b) && a.held !! b.held;
    NotWaitingForKey(s.db, a, row);
    Wants(s.db, a, row);
    HeldElsewhere(s, t, u, row);
  }

  lemma HeldElsewhere(s: Sys, t: nat, u: nat, row: Row)
    requires Good(s) && OnlyLocking(s) && t in s.active && u in s.active && t != u && !row.KeyEntry?
    requires IsProgram(s.active[t].call) && IsProgram(s.active[u].call)
    requires WantsOnly(s.db, s.active[t], row) && Rank(s.active[t]) == 1
    ensures row !in s.active[u].held
  {
    var a, b := s.active[t], s.active[u];
    assert Locking(b.call) && Locks(s.db, b) && a.held !! b.held;
    assert row in b.held ==> HoldsOnly(s.db, b, row);
    match row
    case SlotRow(x) => ClaimsExclusive(s, t, u, x);
    case LiveEntry(x) => ClaimsExclusive(s, t, u, x);
    case BookingRow(x) => if Works(b, x) { WorkNotFresh(s, t, u, x); }
    case ReminderRows(x) =>
      if Works(b, x) { WorkNotFresh(s, t, u, x); }
      WorksApart(s, t, u, x);
    case KeyEntry(_) =>
  }

  lemma PastCasNeverWaits(s: Sys, t: nat, u: nat)
    requires Good(s) && OnlyLocking(s)
    requires t in s.active && s.active[t].call.RescheduleCall? && 2 <= s.active[t].pc <= 7
    ensures !Waits(s, t, u)
  {
    if u in s.active && u != t {
      forall row | row in Wanted(Next, s, t) ensures row !in s.active[u].held {
        WantedRowFree(s, t, u, row);
      }
    }
  }

  /** A reschedule past its compare-and-set waits for nobody until it inserts its
      idempotency key; in particular it never waits for the slot it gives back. */
  lemma ReschedulePastCasNeverWaits(db: Db, actions: seq<Action>, t: nat, u: nat)
    requires Exclusive(db) && AllLocking(actions) && Run(Next, Initial(db), actions).Some?
    requires var s := Run(Next, Initial(db), actions).value;
             t in s.active && s.active[t].call.RescheduleCall? && 2 <= s.active[t].pc <= 7
    ensures !Waits(Run(Next, Initial(db), actions).value, t, u)
  {
    NoDoubleBookingInterleaved(db, actions);
    Reachable(db, actions);
    RunLocking(db, actions);
    PastCasNeverWaits(Run(Next, Initial(db), actions).value, t, u);
  }

  lemma {:induction false} LeastRank(s: Sys, ts: set<nat>) returns (least: nat)
    requires ts != {} && forall t | t in ts :: t in s.active
    ensures least in ts && forall t | t in ts :: Rank(s.active[least]) <= Rank(s.active[t])
  {
    var x :| x in ts;
    var rest := ts - {x};
    least := x;
    if rest != {} {
      var other := LeastRank(s, rest);
      if Rank(s.active[other]) < Rank(s.active[x]) {
        least := other;
      }
    }
    forall t | t in ts ensures Rank(s.active[least]) <= Rank(s.active[t]) {
      assert t == x || t in rest;
    }
  }

  lemma LeastIsFree(s: Sys, t: nat)
    requires Good(s) && t in s.active && forall u | u in s.active :: Rank(s.active[t]) <= Rank(s.active[u])
    ensures !HeldByOther(s, t, Wanted(Next, s, t))
  {
    if u :| u in s.active && u != t && !(s.active[u].held !! Wanted(Next, s, t)) {
      assert Waits(s, t, u);
      WaitsDown(s, t, u);
    }
  }

  /** Progress: in such a state, while any transaction is running, one of them can execute its next statement. */
  lemma SomebodyCanMove(db: Db, actions: seq<Action>) returns (t: nat)
    requires Run(Next, Initial(db), actions).Some? && Exclusive(Run(Next, Initial(db), actions).value.db)
    requires Run(Next, Initial(db), actions).value.active.Keys != {}
    ensures t in Run(Next, Initial(db), actions).value.active
    ensures Step(Next, Run(Next, Initial(db), actions).value, Advance(t)).Some?
  {
    var s := Run(Next, Initial(db), actions).value;
    Reachable(db, actions);
    t := LeastRank(s, s.active.Keys);
    LeastIsFree(s, t);
  }
}
