/** Transactions interleaved statement by statement under row locks, and the proof
    that the committed tables are those of a serial execution in commit order. */
module Interleaving {
  import opened Tables
  import opened Requests
  import opened Transactions
  import opened Programs

  /** The committed tables, the running transactions, and the committed ones in
      commit order with the replies they gave. */
  datatype Sys = Sys(db: Db, active: map<nat, Txn>, log: seq<Call>, replies: seq<Reply>)

  function Initial(db: Db): Sys {
    Sys(db, map[], [], [])
  }

  /** `Advance` runs the transaction's next statement, COMMIT and ROLLBACK included;
      `Crash` is a lost connection, which rolls back. */
  datatype Action = Begin(tx: nat, call: Call) | Advance(tx: nat) | Crash(tx: nat)

  function NewIds(c: Call): set<Uuid> {
    if c.CreateCall? || c.RescheduleCall? then {c.newId} else {}
  }

  /** The id the database draws is not in use. */
  predicate FreshIds(s: Sys, c: Call) {
    forall id | id in NewIds(c) ::
      id !in s.db.bookings && forall t | t in s.active :: id !in NewIds(s.active[t].call)
  }

  /** The reads a request makes before its transaction: `None` when it is answered by them alone. */
  function Admitted(db: Db, c: Call): Option<Call>
    requires c.WellFormed()
  {
    match c
    case CreateCall(_, _, _, _, _, _) => if CreatePrecheck(db, c.create).Some? then None else Some(c)
    case RescheduleCall(_, _, _) => if MoveGuard(db, c.move).Some? || MoveTooLate(db, c) then None else Some(c)
    case CancelCall(id, _, _, _, _) =>
      if CancelGuard(db, c).Some? then None else Some(CancelWrites(id, db.bookings[id].slot))
    case ConfirmCall(_, _) => Some(c)
    case DeclineCall(_, _) => Some(c)
    case PatchCall(_, _, _) => Some(c)
    case _ => None
  }

  /** Another transaction holds one of `rows`. */
  predicate HeldByOther(s: Sys, tx: nat, rows: set<Row>) {
    exists u | u in s.active :: u != tx && !(s.active[u].held !! rows)
  }

  /** The first, read-only transaction of a reschedule locks the booking row for a moment. */
  function BeginRows(c: Call): set<Row>
    requires c.WellFormed()
  {
    if c.RescheduleCall? then {BookingRow(c.move.bookingId)} else {}
  }

  function Wanted(next: Program, s: Sys, tx: nat): set<Row>
    requires tx in s.active
  {
    Touches(next(s.active[tx]), View(s.db, s.active[tx]))
  }

  function Finish(s: Sys, tx: nat): Sys {
    s.(active := s.active - {tx})
  }

  function Committed(s: Sys, tx: nat, reply: Reply): Sys
    requires tx in s.active
  {
    var t := s.active[tx];
    Finish(s, tx).(db := View(s.db, t), log := s.log + [t.call], replies := s.replies + [reply])
  }

  function Step(next: Program, s: Sys, a: Action): Option<Sys> {
    match a
    case Begin(tx, c) =>
      if tx in s.active || !c.WellFormed() || !FreshIds(s, c) || HeldByOther(s, tx, BeginRows(c)) then None
      else
        var admitted := Admitted(s.db, c);
        Some(if admitted.None? then s else s.(active := s.active[tx := Start(admitted.value)]))
    case Crash(tx) => if tx !in s.active then None else Some(Finish(s, tx))
    case Advance(tx) =>
      if tx !in s.active || HeldByOther(s, tx, Wanted(next, s, tx)) then None
      else
        var t := s.active[tx];
        if next(t).Commit? then
          Some(Committed(s, tx, next(t).reply))
        else
          var t' := Exec(next, t, s.db);
          Some(if t'.None? then Finish(s, tx) else s.(active := s.active[tx := t'.value]))
  }

  function Run(next: Program, s: Sys, actions: seq<Action>): Option<Sys> {
    if actions == [] then Some(s)
    else
      var before := Run(next, s, actions[..|actions| - 1]);
      if before.None? then None else Step(next, before.value, actions[|actions| - 1])
  }

  /** Locks block: a statement that needs a row another transaction holds cannot run, nor can a reschedule whose
      booking row is held begin.  A lost connection leaves the tables alone and its transaction gone. */
  lemma LocksBlock(next: Program, s: Sys, tx: nat, u: nat, row: Row, c: Call)
    requires u in s.active && u != tx && row in s.active[u].held
    ensures tx in s.active && row in Touches(next(s.active[tx]), View(s.db, s.active[tx])) ==>
              Step(next, s, Advance(tx)).None?
    ensures c.RescheduleCall? && c.WellFormed() && row == BookingRow(c.move.bookingId) ==>
              Step(next, s, Begin(tx, c)).None?
    ensures Step(next, s, Crash(u)) == Some(Sys(s.db, s.active - {u}, s.log, s.replies))
  {
    if c.WellFormed() && row in BeginRows(c) {
      assert HeldByOther(s, tx, BeginRows(c));
    }
  }

  /** Run one at a time, each committed request gives the very reply it gave. */
  ghost predicate RepliesMatch(db: Db, log: seq<Call>, replies: seq<Reply>)
    requires AllWellFormed(log)
  {
    |replies| == |log| &&
    forall i | 0 <= i < |log| :: Apply(Serial(db, log[..i]), log[i]).1 == replies[i]
  }

  // ---------- the invariant ----------

  ghost predicate LocksDisjoint(s: Sys) {
    forall t, u | t in s.active && u in s.active && t != u :: s.active[t].held !! s.active[u].held
  }

  /** The transaction stands where it would stand had it run alone on what is committed now. */
  ghost predicate Undisturbed(next: Program, db: Db, t: Txn) {
    t.call.WellFormed() && Solo(next, db, t.call, t.pc) == Some(t) && PrecheckHolds(db, t.call)
  }

  ghost predicate Inv(next: Program, s: Sys) {
    LocksDisjoint(s) && forall t | t in s.active :: Undisturbed(next, s.db, s.active[t])
  }

  /** A booking's slot and a slot's start never change, so the window test keeps its answer. */
  lemma PrecheckStable(db: Db, w: Db, held: set<Row>, c: Call)
    requires c.WellFormed() && Covered(db, w, held) && PrecheckHolds(db, c)
    ensures PrecheckHolds(Merge(db, w), c)
  {
    if c.RescheduleCall? {
      var b := c.move.bookingId;
      assert Merge(db, w).bookings[b].slot == db.bookings[b].slot;
    }
  }

  /** A commit disturbs no other transaction. */
  lemma CommitUndisturbed(next: Program, db: Db, u: Txn, t: Txn)
    requires Undisturbed(next, db, u) && Undisturbed(next, db, t) && u.held !! t.held
    ensures Undisturbed(next, View(db, u), t)
  {
    SoloCovered(next, db, u.call, u.pc);
    forall row | row in t.held ensures Agree(db, View(db, u), row) {
      CommitLocal(db, u.writes, u.held, row);
    }
    SoloFrame(next, db, View(db, u), t.call, t.pc);
    PrecheckStable(db, u.writes, u.held, t.call);
  }

  lemma AdvanceUndisturbed(next: Program, db: Db, t: Txn)
    requires Undisturbed(next, db, t) && Exec(next, t, db).Some?
    ensures Undisturbed(next, db, Exec(next, t, db).value)
  {
    SoloNext(next, db, t.call, t.pc);
    SoloCounts(next, db, t.call, t.pc + 1);
  }

  lemma ExecHeld(next: Program, t: Txn, db: Db)
    requires Exec(next, t, db).Some?
    ensures Exec(next, t, db).value.held == t.held + Touches(next(t), View(db, t))
  {
  }

  lemma AdvanceInv(next: Program, s: Sys, tx: nat)
    requires Inv(next, s) && tx in s.active && !HeldByOther(s, tx, Wanted(next, s, tx))
    requires Exec(next, s.active[tx], s.db).Some?
    ensures Inv(next, s.(active := s.active[tx := Exec(next, s.active[tx], s.db).value]))
  {
    var t := s.active[tx];
    var t' := Exec(next, t, s.db).value;
    var s' := s.(active := s.active[tx := t']);
    AdvanceUndisturbed(next, s.db, t);
    ExecHeld(next, t, s.db);
    forall u | u in s.active && u != tx ensures s.active[u].held !! t'.held {
      assert s.active[u].held !! t.held;
    }
  }

  lemma CommitInv(next: Program, s: Sys, tx: nat, reply: Reply)
    requires Inv(next, s) && tx in s.active
    ensures Inv(next, Committed(s, tx, reply))
  {
    var s' := Committed(s, tx, reply);
    forall t | t in s'.active ensures Undisturbed(next, s'.db, s'.active[t]) {
      CommitUndisturbed(next, s.db, s.active[tx], s.active[t]);
    }
  }

  lemma AdmittedStarts(next: Program, db: Db, c: Call)
    requires c.WellFormed() && Admitted(db, c).Some?
    ensures Undisturbed(next, db, Start(Admitted(db, c).value))
  {
  }

  lemma StepInv(next: Program, s: Sys, a: Action)
    requires Inv(next, s) && Step(next, s, a).Some?
    ensures Inv(next, Step(next, s, a).value)
  {
    match a
    case Begin(tx, c) =>
      if Admitted(s.db, c).Some? {
        AdmittedStarts(next, s.db, c);
      }
    case Crash(tx) =>
    case Advance(tx) =>
      if next(s.active[tx]).Commit? {
        CommitInv(next, s, tx, next(s.active[tx]).reply);
      } else if Exec(next, s.active[tx], s.db).Some? {
        AdvanceInv(next, s, tx);
      }
  }

  /** The log so far, run serially from `db`, gives the committed tables and the replies given. */
  ghost predicate Serialised(db: Db, s: Sys) {
    AllWellFormed(s.log) && Serial(db, s.log) == s.db && RepliesMatch(db, s.log, s.replies)
  }

  lemma AppendCall(db: Db, log: seq<Call>, replies: seq<Reply>, c: Call)
    requires AllWellFormed(log) && c.WellFormed() && RepliesMatch(db, log, replies)
    ensures AllWellFormed(log + [c])
    ensures Serial(db, log + [c]) == Apply(Serial(db, log), c).0
    ensures RepliesMatch(db, log + [c], replies + [Apply(Serial(db, log), c).1])
  {
    var more, given := log + [c], replies + [Apply(Serial(db, log), c).1];
    assert more[..|more| - 1] == log;
    forall i | 0 <= i < |more| ensures Apply(Serial(db, more[..i]), more[i]).1 == given[i] {
      if i < |log| {
        assert more[..i] == log[..i];
      }
    }
  }

  lemma CommitSerialised(db: Db, s: Sys, tx: nat)
    requires Inv(Next, s) && Serialised(db, s) && tx in s.active && Next(s.active[tx]).Commit?
    ensures Serialised(db, Committed(s, tx, Next(s.active[tx]).reply))
  {
    var t := s.active[tx];
    SoloIsAtomic(s.db, t.call, t.pc);
    AppendCall(db, s.log, s.replies, t.call);
  }

  lemma StepSerialised(db: Db, s: Sys, a: Action)
    requires Inv(Next, s) && Serialised(db, s) && Step(Next, s, a).Some?
    ensures Serialised(db, Step(Next, s, a).value)
  {
    if a.Advance? && Next(s.active[a.tx]).Commit? {
      CommitSerialised(db, s, a.tx);
    }
  }

  /** Serialisability.  Whatever the interleaving, crashes included, the committed
      tables are those of the committed requests run one at a time in commit order,
      and every one of them gave the reply it gives there. */
  lemma {:induction false} Serialisable(db: Db, actions: seq<Action>)
    requires Run(Next, Initial(db), actions).Some?
    ensures Inv(Next, Run(Next, Initial(db), actions).value)
    ensures Serialised(db, Run(Next, Initial(db), actions).value)
  {
    if actions != [] {
      var before := actions[..|actions| - 1];
      Serialisable(db, before);
      var s := Run(Next, Initial(db), before).value;
      StepInv(Next, s, actions[|actions| - 1]);
      StepSerialised(db, s, actions[|actions| - 1]);
    }
  }

  // ---------- a transaction nobody disturbs commits ----------

  lemma RunExtends(next: Program, s0: Sys, actions: seq<Action>, s: Sys, a: Action, s': Sys)
    requires Run(next, s0, actions) == Some(s) && Step(next, s, a) == Some(s')
    ensures Run(next, s0, actions + [a]) == Some(s')
  {
    assert (actions + [a])[..|actions|] == actions;
  }

  /** A request whose reads admit it, while no reschedule's booking row is held, starts its transaction. */
  lemma BeginsAdmitted(next: Program, s0: Sys, actions: seq<Action>, s: Sys, tx: nat, c: Call, a: Call, s': Sys)
    requires Run(next, s0, actions) == Some(s) && tx !in s.active && c.WellFormed() && FreshIds(s, c)
    requires !HeldByOther(s, tx, BeginRows(c)) && Admitted(s.db, c) == Some(a)
    requires s' == s.(active := s.active[tx := Start(a)])
    ensures Run(next, s0, actions + [Begin(tx, c)]) == Some(s') && Undisturbed(next, s.db, Start(a))
  {
    AdmittedStarts(next, s.db, c);
    RunExtends(next, s0, actions, s, Begin(tx, c), s');
  }

  ghost predicate OthersHoldNothing(s: Sys, tx: nat) {
    forall u | u in s.active && u != tx :: s.active[u].held == {}
  }

  /** The requests that run as transactions. */
  predicate IsProgram(c: Call) {
    c.WellFormed() && !c.CancelCall? && !c.TransitionCall? && !c.LifecycleCancelCall?
  }

  lemma SeenSoon(db: Db, t: Txn)
    requires Undisturbed(Next, db, t) && IsProgram(t.call) && CarriedOut(db, t.call)
    ensures Seen(db, t) && t.pc <= 9 && (Next(t).Commit? || Exec(Next, t, db).Some?)
  {
    SoloSeen(db, t.call, t.pc);
    SeenProceeds(db, t);
    ExecDo(Next, t, db);
  }

  lemma OneAdvance(s0: Sys, actions: seq<Action>, s: Sys, tx: nat, t': Txn)
    requires Run(Next, s0, actions) == Some(s) && tx in s.active && OthersHoldNothing(s, tx)
    requires Undisturbed(Next, s.db, s.active[tx]) && !Next(s.active[tx]).Commit?
    requires Exec(Next, s.active[tx], s.db) == Some(t')
    ensures var s' := s.(active := s.active[tx := t']);
            Run(Next, s0, actions + [Advance(tx)]) == Some(s') && OthersHoldNothing(s', tx) &&
            Undisturbed(Next, s.db, t') && t'.call == s.active[tx].call && t'.pc == s.active[tx].pc + 1 &&
            s'.active - {tx} == s.active - {tx}
  {
    var s' := s.(active := s.active[tx := t']);
    assert !HeldByOther(s, tx, Wanted(Next, s, tx));
    RunExtends(Next, s0, actions, s, Advance(tx), s');
    AdvanceUndisturbed(Next, s.db, s.active[tx]);
    ExecCounts(Next, s.active[tx], s.db);
  }

  lemma LastAdvance(s0: Sys, actions: seq<Action>, s: Sys, tx: nat)
    requires Run(Next, s0, actions) == Some(s) && tx in s.active && OthersHoldNothing(s, tx)
    requires Next(s.active[tx]).Commit?
    ensures Run(Next, s0, actions + [Advance(tx)]) == Some(Committed(s, tx, Next(s.active[tx]).reply))
  {
    assert !HeldByOther(s, tx, Wanted(Next, s, tx));
    RunExtends(Next, s0, actions, s, Advance(tx), Committed(s, tx, Next(s.active[tx]).reply));
  }

  /** Let run while nobody else holds a row, a transaction whose atomic request would be carried out
      reaches COMMIT, publishing that request's tables and reply. */
  lemma {:induction false} RunsToCommit(s0: Sys, actions: seq<Action>, s: Sys, tx: nat) returns (more: seq<Action>)
    requires Run(Next, s0, actions) == Some(s) && tx in s.active && OthersHoldNothing(s, tx)
    requires Undisturbed(Next, s.db, s.active[tx]) && IsProgram(s.active[tx].call)
    requires CarriedOut(s.db, s.active[tx].call)
    ensures var c := s.active[tx].call;
            Run(Next, s0, more) ==
            Some(Sys(Apply(s.db, c).0, s.active - {tx}, s.log + [c], s.replies + [Apply(s.db, c).1]))
    decreases if s.active[tx].pc <= 9 then 10 - s.active[tx].pc else 0
  {
    var t := s.active[tx];
    SeenSoon(s.db, t);
    more := actions + [Advance(tx)];
    if Next(t).Commit? {
      SeenCommits(s.db, t);
      LastAdvance(s0, actions, s, tx);
    } else {
      var t' := Exec(Next, t, s.db).value;
      OneAdvance(s0, actions, s, tx, t');
      more := RunsToCommit(s0, more, s.(active := s.active[tx := t']), tx);
    }
  }
}
