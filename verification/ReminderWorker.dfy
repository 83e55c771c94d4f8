/** The worker that processes reminder jobs, and the email provider it sends through. */
module ReminderWorker {
  import opened Tables
  import opened EmailKeys
  import opened ReminderRows
  import opened Storage

  /** The worker's retry window, how long the provider remembers an idempotency key, and how much
      time may pass between the window test and the provider's answer. */
  datatype Limits = Limits(window: nat, retention: nat, latency: nat)

  /** The retry window is one millisecond below the provider's 24 hours. */
  function Chronos(latency: nat): Limits {
    Limits(24 * 60 * 60 * 1000 - 1, 24 * MS_PER_HOUR, latency)
  }

  datatype Email = Email(id: ReminderId, at: int)

  /** When each key was last accepted, and the emails handed on, in order. */
  datatype Provider = Provider(accepted: map<string, int>, delivered: seq<Email>)

  /** The provider accepts a request; a key it still remembers produces no second email. */
  function Accept(lim: Limits, p: Provider, id: ReminderId, at: int): Provider {
    if KeyText(id) in p.accepted && at - p.accepted[KeyText(id)] < lim.retention then p
    else Provider(p.accepted[KeyText(id) := at], p.delivered + [Email(id, at)])
  }

  datatype Reply = Accepted | Transient | Permanent | Broken

  /** What the worker meets outside the tables: the client row, and a send that may have
      reached the provider even when its reply says otherwise. */
  datatype Outside = Outside(hasEmail: bool, optedOut: bool, arrived: bool, reply: Reply) {
    predicate Reaches() {
      arrived || reply == Accepted
    }
  }

  /** Where an attempt at one job stands between two of its statements. */
  datatype Attempt =
    | Claiming(id: ReminderId)
    | Rechecking(id: ReminderId)
    | Loading(id: ReminderId)
    | LoadingBooking(id: ReminderId, fireAt: int)
    | CheckingWindow(id: ReminderId, fireAt: int)
    | LoadingClient(id: ReminderId, fireAt: int, checkedAt: int)
    | Emitting(id: ReminderId, fireAt: int, checkedAt: int)
    | Marking(id: ReminderId, status: ReminderStatus)
  {
    /** Past the read of the row. */
    predicate RowRead() {
      LoadingBooking? || Cleared()
    }

    /** Past the read of the booking. */
    predicate Cleared() {
      CheckingWindow? || LoadingClient? || Emitting?
    }
  }

  datatype Moved = Moved(rows: Reminders, provider: Provider, next: Option<Attempt>)

  function MarkRow(rows: Reminders, id: ReminderId, status: ReminderStatus): Reminders {
    if id in rows then rows[id := Happen(rows[id], Mark(status))] else rows
  }

  /** The attempt's next statement. */
  function AttemptStep(lim: Limits, db: Db, p: Provider, now: int, a: Attempt, x: Outside): Moved {
    var rows := db.reminders;
    match a
    case Claiming(id) =>
      if id in rows && rows[id].status == Scheduled
      then Moved(rows[id := Happen(rows[id], Claim(now, now))], p, Some(Loading(id)))
      else Moved(rows, p, Some(Rechecking(id)))
    case Rechecking(id) =>
      Moved(rows, p, if id in rows && rows[id].status == Sending then Some(Loading(id)) else None)
    case Loading(id) =>
      Moved(rows, p, if id in rows && rows[id].status == Sending then Some(LoadingBooking(id, rows[id].fireAt))
            else None)
    case LoadingBooking(id, fireAt) =>
      Moved(rows, p, Some(if id.booking !in db.bookings then Marking(id, Failed)
                          else if db.bookings[id.booking].status != Booked then Marking(id, ReminderCancelled)
                          else CheckingWindow(id, fireAt)))
    case CheckingWindow(id, fireAt) =>
      Moved(rows, p, Some(if now - fireAt > lim.window then Marking(id, Failed) else LoadingClient(id, fireAt, now)))
    case LoadingClient(id, fireAt, checkedAt) =>
      Moved(rows, p, if !x.hasEmail then None
                     else Some(if x.optedOut then Marking(id, Suppressed) else Emitting(id, fireAt, checkedAt)))
    case Emitting(id, _, _) =>
      Moved(rows, if x.Reaches() then Accept(lim, p, id, now) else p,
            match x.reply
            case Accepted => Some(Marking(id, Sent))
            case Permanent => Some(Marking(id, Failed))
            case _ => None)
    case Marking(id, status) => Moved(MarkRow(rows, id, status), p, None)
  }

  // ---------- one attempt on its own ----------

  /** The clock readings of an attempt: at the claim, at the window test and at the send. */
  datatype Times = Times(claim: int, check: int, send: int)

  /** `process` run without interruption. */
  function Process(lim: Limits, db: Db, p: Provider, id: ReminderId, t: Times, x: Outside): (Reminders, Provider) {
    if id !in db.reminders || db.reminders[id].status !in {Scheduled, Sending} then (db.reminders, p)
    else
      var row := db.reminders[id];
      var claimed := Happen(row, Claim(t.claim, t.claim));
      var rows := db.reminders[id := claimed];
      if id.booking !in db.bookings then (MarkRow(rows, id, Failed), p)
      else if db.bookings[id.booking].status != Booked then (MarkRow(rows, id, ReminderCancelled), p)
      else if t.check - row.fireAt > lim.window then (MarkRow(rows, id, Failed), p)
      else if !x.hasEmail || x.optedOut then (rows, p)
      else
        var p' := if x.Reaches() then Accept(lim, p, id, t.send) else p;
        match x.reply
        case Accepted => (MarkRow(rows, id, Sent), p')
        case Permanent => (MarkRow(rows, id, Failed), p')
        case _ => (rows, p')
  }

  function ClockAt(a: Attempt, t: Times): int {
    if a.Claiming? then t.claim else if a.CheckingWindow? then t.check else t.send
  }

  /** `n` statements of an attempt with nobody else moving. */
  function Alone(lim: Limits, db: Db, p: Provider, a: Attempt, t: Times, x: Outside, n: nat): Moved
    decreases n
  {
    if n == 0 then Moved(db.reminders, p, Some(a))
    else
      var m := AttemptStep(lim, db, p, ClockAt(a, t), a, x);
      if m.next.None? then m else Alone(lim, db.(reminders := m.rows), m.provider, m.next.value, t, x, n - 1)
  }

  lemma AloneFromEmitting(lim: Limits, db: Db, p: Provider, id: ReminderId, t: Times, x: Outside)
    requires id in db.reminders
    ensures Alone(lim, db, p, Emitting(id, db.reminders[id].fireAt, t.check), t, x, 2) ==
            Moved(if x.reply == Accepted then MarkRow(db.reminders, id, Sent)
                  else if x.reply == Permanent then MarkRow(db.reminders, id, Failed) else db.reminders,
                  if x.Reaches() then Accept(lim, p, id, t.send) else p, None)
  {
    assert db.(reminders := db.reminders) == db;
  }

  /** From the read of the client on. */
  function ProcessClient(lim: Limits, rows: Reminders, p: Provider, id: ReminderId, t: Times, x: Outside): Moved {
    if !x.hasEmail || x.optedOut then Moved(rows, p, None)
    else
      Moved(if x.reply == Accepted then MarkRow(rows, id, Sent)
            else if x.reply == Permanent then MarkRow(rows, id, Failed) else rows,
            if x.Reaches() then Accept(lim, p, id, t.send) else p, None)
  }

  lemma AloneFromClient(lim: Limits, db: Db, p: Provider, id: ReminderId, t: Times, x: Outside)
    requires id in db.reminders
    ensures Alone(lim, db, p, LoadingClient(id, db.reminders[id].fireAt, t.check), t, x, 3) ==
            ProcessClient(lim, db.reminders, p, id, t, x)
  {
    assert db.reminders[id := db.reminders[id]] == db.reminders;
    assert db.(reminders := db.reminders) == db;
    AloneFromEmitting(lim, db, p, id, t, x);
    assert MarkRow(db.reminders, id, Suppressed) == db.reminders;
  }

  lemma AloneFromBooking(lim: Limits, db: Db, p: Provider, id: ReminderId, t: Times, x: Outside)
    requires id in db.reminders && db.reminders[id].status == Sending
    ensures var m := Alone(lim, db, p, LoadingBooking(id, db.reminders[id].fireAt), t, x, 5);
            m == Moved(Process(lim, db, p, id, t, x).0, Process(lim, db, p, id, t, x).1, None)
  {
    assert db.reminders[id := db.reminders[id]] == db.reminders;
    assert db.(reminders := db.reminders) == db;
    AloneFromClient(lim, db, p, id, t, x);
  }

  lemma ClaimTwice(lim: Limits, db: Db, p: Provider, id: ReminderId, t: Times, x: Outside)
    requires id in db.reminders
    ensures Process(lim, db.(reminders := db.reminders[id := Happen(db.reminders[id], Claim(t.claim, t.claim))]), p,
                    id, t, x) ==
            Process(lim, db, p, id, t, x)
  {
    var claimed := Happen(db.reminders[id], Claim(t.claim, t.claim));
    assert db.reminders[id := claimed][id := claimed] == db.reminders[id := claimed];
    assert db.reminders[id].status != Scheduled ==> db.reminders[id := claimed] == db.reminders;
  }

  /** The statement-by-statement attempt, left alone, does what `process` does in one go. */
  lemma AloneIsProcess(lim: Limits, db: Db, p: Provider, id: ReminderId, t: Times, x: Outside)
    ensures Alone(lim, db, p, Claiming(id), t, x, 8) ==
            Moved(Process(lim, db, p, id, t, x).0, Process(lim, db, p, id, t, x).1, None)
  {
    assert db.(reminders := db.reminders) == db;
    if id in db.reminders && db.reminders[id].status in {Scheduled, Sending} {
      var db' := db.(reminders := db.reminders[id := Happen(db.reminders[id], Claim(t.claim, t.claim))]);
      var a := LoadingBooking(id, db.reminders[id].fireAt);
      ClaimTwice(lim, db, p, id, t, x);
      AloneFromBooking(lim, db', p, id, t, x);
      AloneLonger(lim, db', p, a, t, x, 5);
      if db.reminders[id].status == Scheduled {
        assert Alone(lim, db, p, Claiming(id), t, x, 8) == Alone(lim, db', p, a, t, x, 6);
      } else {
        assert db' == db;
        assert Alone(lim, db, p, Claiming(id), t, x, 8) == Alone(lim, db, p, a, t, x, 5);
      }
    }
  }

  lemma {:induction false} AloneLonger(lim: Limits, db: Db, p: Provider, a: Attempt, t: Times, x: Outside, n: nat)
    requires Alone(lim, db, p, a, t, x, n).next.None?
    ensures Alone(lim, db, p, a, t, x, n + 1) == Alone(lim, db, p, a, t, x, n)
    decreases n
  {
    if n > 0 {
      var m := AttemptStep(lim, db, p, ClockAt(a, t), a, x);
      if m.next.Some? {
        AloneLonger(lim, db.(reminders := m.rows), m.provider, m.next.value, t, x, n - 1);
      }
    }
  }

  /** The row after an attempt: claimed if it was scheduled, and of this status. */
  predicate RowEnds(row: Reminder, row': Reminder, t: Times, status: ReminderStatus) {
    row'.status == status && row'.fireAt == row.fireAt &&
    row'.attempts == row.attempts + (if row.status == Scheduled then 1 else 0) &&
    row'.lockedUntil == if row.status == Scheduled then Some(t.claim + 2 * 60 * 1000) else row.lockedUntil
  }

  /** The provider after a send: it hands the email on unless it remembers the key or was never reached. */
  predicate SendEnds(lim: Limits, p: Provider, p': Provider, id: ReminderId, t: Times, x: Outside) {
    if !x.arrived && x.reply != Accepted then p' == p
    else if KeyText(id) in p.accepted && t.send < p.accepted[KeyText(id)] + lim.retention then p' == p
    else p' == Provider(p.accepted[KeyText(id) := t.send], p.delivered + [Email(id, t.send)])
  }

  /** What an attempt leaves behind, case by case; every other row stays as it was. */
  predicate Ends(lim: Limits, db: Db, p: Provider, id: ReminderId, t: Times, x: Outside, rows: Reminders,
                 p': Provider) {
    if id !in db.reminders || db.reminders[id].status !in {Scheduled, Sending} then rows == db.reminders && p' == p
    else
      var row := db.reminders[id];
      id in rows && rows == db.reminders[id := rows[id]] &&
      if id.booking !in db.bookings then RowEnds(row, rows[id], t, Failed) && p' == p
      else if db.bookings[id.booking].status != Booked then RowEnds(row, rows[id], t, ReminderCancelled) && p' == p
      else if t.check - row.fireAt > lim.window then RowEnds(row, rows[id], t, Failed) && p' == p
      else if !x.hasEmail || x.optedOut then RowEnds(row, rows[id], t, Sending) && p' == p
      else
        RowEnds(row, rows[id], t, match x.reply
                                  case Accepted => Sent
                                  case Permanent => Failed
                                  case Transient => Sending
                                  case Broken => Sending) &&
        SendEnds(lim, p, p', id, t, x)
  }

  lemma ProcessEnds(lim: Limits, db: Db, p: Provider, id: ReminderId, t: Times, x: Outside)
    ensures Ends(lim, db, p, id, t, x, Process(lim, db, p, id, t, x).0, Process(lim, db, p, id, t, x).1)
  {
  }

  /** An attempt left alone ends, and so. */
  lemma AttemptOutcome(lim: Limits, db: Db, p: Provider, id: ReminderId, t: Times, x: Outside)
    ensures var m := Alone(lim, db, p, Claiming(id), t, x, 8);
            m.next.None? && Ends(lim, db, p, id, t, x, m.rows, m.provider)
  {
    ProcessEnds(lim, db, p, id, t, x);
    AloneIsProcess(lim, db, p, id, t, x);
  }

  /** With the constants in force a booked row is given up exactly when its window test comes a day or more
      after its fire time. */
  lemma GivenUpAfterADay(latency: nat, db: Db, p: Provider, id: ReminderId, t: Times, x: Outside)
    requires id in db.reminders && db.reminders[id].status in {Scheduled, Sending}
    requires id.booking in db.bookings && db.bookings[id.booking].status == Booked && x.hasEmail && x.reply != Permanent
    ensures var rows := Alone(Chronos(latency), db, p, Claiming(id), t, x, 8).rows;
            id in rows && (rows[id].status == Failed <==> t.check >= db.reminders[id].fireAt + 24 * 60 * 60 * 1000)
  {
    AttemptOutcome(Chronos(latency), db, p, id, t, x);
  }

  /** An opted-out client gets no email, and the row stays claimed: the mark meant to record
      the opt-out is one the table refuses. */
  lemma OptOutLeavesSending(lim: Limits, db: Db, p: Provider, id: ReminderId, t: Times, x: Outside)
    requires id in db.reminders && db.reminders[id].status in {Scheduled, Sending}
    requires id.booking in db.bookings && db.bookings[id.booking].status == Booked
    requires t.check - db.reminders[id].fireAt <= lim.window && x.hasEmail && x.optedOut
    ensures Alone(lim, db, p, Claiming(id), t, x, 8).provider == p
    ensures id in Alone(lim, db, p, Claiming(id), t, x, 8).rows &&
            Alone(lim, db, p, Claiming(id), t, x, 8).rows[id].status == Sending
  {
    AloneIsProcess(lim, db, p, id, t, x);
  }

  // ---------- the next due row ----------

  predicate Due(rows: Reminders, id: ReminderId, dbNow: int, locked: set<ReminderId>) {
    id in rows && id !in locked && ClaimableDue(rows[id], dbNow)
  }

  /** A due row no other due row precedes. */
  ghost predicate EarliestDue(rows: Reminders, id: ReminderId, dbNow: int, locked: set<ReminderId>) {
    Due(rows, id, dbNow, locked) &&
    forall other | Due(rows, other, dbNow, locked) :: rows[id].fireAt <= rows[other].fireAt
  }

  /** Due are the rows nobody holds that are scheduled, or sending under a lease that has run out. */
  lemma DueExactly(rows: Reminders, id: ReminderId, dbNow: int, locked: set<ReminderId>)
    ensures Due(rows, id, dbNow, locked) <==>
            id in rows && id !in locked &&
            (rows[id].status == Scheduled ||
             (rows[id].status == Sending && rows[id].lockedUntil.Some? && rows[id].lockedUntil.value < dbNow))
  {
  }

  /** A claim leases the row for two minutes and counts the attempt. */
  lemma LeaseExactly(row: Reminder, app: int)
    ensures Lease(row, app) == Reminder(row.fireAt, Sending, row.attempts + 1, Some(app + 2 * 60 * 1000))
  {
  }

  lemma {:induction false} EarliestExists(rows: Reminders, ids: set<ReminderId>)
    requires ids != {} && ids <= rows.Keys
    ensures exists id | id in ids :: forall other | other in ids :: rows[id].fireAt <= rows[other].fireAt
  {
    var x :| x in ids;
    var rest := ids - {x};
    if rest == {} {
      assert ids == {x};
    } else {
      EarliestExists(rows, rest);
      var y :| y in rest && forall other | other in rest :: rows[y].fireAt <= rows[other].fireAt;
      var id := if rows[x].fireAt <= rows[y].fireAt then x else y;
      forall other | other in ids ensures rows[id].fireAt <= rows[other].fireAt {
        assert other == x || other in rest;
      }
    }
  }

  class ReminderWorker {
    const db: Database
    const lim: Limits
    var provider: Provider

    constructor (db: Database, provider: Provider, latency: nat)
      ensures this.db == db && this.provider == provider && lim == Chronos(latency)
    {
      this.db := db;
      this.lim := Chronos(latency);
      this.provider := provider;
    }

    method MarkStatus(id: ReminderId, status: ReminderStatus)
      modifies db`reminders
      ensures db.reminders == MarkRow(old(db.reminders), id, status)
    {
      if id in db.reminders && Marked(status) {
        db.reminders := db.reminders[id := db.reminders[id].(status := status)];
      }
    }

    /** `claimDue`; `locked` are the rows other transactions hold, which it skips. */
    method ClaimDueRow(app: int, dbNow: int, locked: set<ReminderId>) returns (claimed: Option<ReminderId>)
      modifies db`reminders
      ensures claimed.None? ==> db.reminders == old(db.reminders) && forall id :: !Due(db.reminders, id, dbNow, locked)
      ensures claimed.Some? ==>
                old(EarliestDue(db.reminders, claimed.value, dbNow, locked)) &&
                db.reminders ==
                    old(db.reminders)[claimed.value := Happen(old(db.reminders)[claimed.value], ClaimDue(app, dbNow))]
    {
      var due := set id | id in db.reminders && Due(db.reminders, id, dbNow, locked);
      if due == {} {
        assert forall id :: Due(db.reminders, id, dbNow, locked) ==> id in due;
        return None;
      }
      EarliestExists(db.reminders, due);
      var id :| id in due && forall other | other in due :: db.reminders[id].fireAt <= db.reminders[other].fireAt;
      db.reminders := db.reminders[id := Lease(db.reminders[id], app)];
      claimed := Some(id);
    }

    /** `processReminder`: a row that is missing or not sending is answered with an error and left alone. */
    method ProcessReminder(id: ReminderId, t: Times, x: Outside)
      modifies this`provider, db`reminders
      ensures (db.reminders, provider) ==
              if old(id in db.reminders && db.reminders[id].status == Sending)
              then old(Process(lim, db.Contents(), provider, id, t, x)) else old((db.reminders, provider))
    {
      if id !in db.reminders || db.reminders[id].status != Sending {
        return;
      }
      var row := db.reminders[id];
      assert db.reminders[id := Happen(row, Claim(t.claim, t.claim))] == db.reminders;
      if id.booking !in db.bookings {
        MarkStatus(id, Failed);
        return;
      }
      if db.bookings[id.booking].status != Booked {
        MarkStatus(id, ReminderCancelled);
        return;
      }
      if t.check - row.fireAt > lim.window {
        MarkStatus(id, Failed);
        return;
      }
      if !x.hasEmail {
        return;
      }
      if x.optedOut {
        MarkStatus(id, Suppressed);
        return;
      }
      if x.Reaches() {
        provider := Accept(lim, provider, id, t.send);
      }
      match x.reply
      case Accepted => MarkStatus(id, Sent);
      case Permanent => MarkStatus(id, Failed);
      case _ =>
    }

    /** `process`: an atomic claim of this row, or a second look at one already sending. */
    method ProcessJob(id: ReminderId, t: Times, x: Outside)
      modifies this`provider, db`reminders
      ensures (db.reminders, provider) == old(Process(lim, db.Contents(), provider, id, t, x))
      ensures old(Alone(lim, db.Contents(), provider, Claiming(id), t, x, 8)) == Moved(db.reminders, provider, None)
      ensures Ends(lim, old(db.Contents()), old(provider), id, t, x, db.reminders, provider)
    {
      AloneIsProcess(lim, db.Contents(), provider, id, t, x);
      ProcessEnds(lim, db.Contents(), provider, id, t, x);
      if id in db.reminders && db.reminders[id].status == Scheduled {
        ghost var before := db.Contents();
        db.reminders := db.reminders[id := Lease(db.reminders[id], t.claim)];
        assert db.reminders[id := Happen(db.reminders[id], Claim(t.claim, t.claim))] == db.reminders;
        ProcessReminder(id, t, x);
      } else if id in db.reminders && db.reminders[id].status == Sending {
        ProcessReminder(id, t, x);
      }
    }
  }
}
