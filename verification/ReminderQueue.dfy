/** The delayed-job queue and the manager that keeps it in step with the tables. */
module ReminderQueue {
  import opened Tables
  import opened Requests
  import opened EmailKeys
  import opened Storage

  /** A queued job: the row it is about, and when the queue releases it. */
  datatype Job = Job(reminder: ReminderId, readyAt: int)

  type Jobs = map<string, Job>

  datatype Reminding = Reminding(rows: Reminders, jobs: Jobs)

  predicate IsScheduled(rows: Reminders, id: ReminderId) {
    id in rows && rows[id].status == Scheduled
  }

  /** Rows `cancelForBooking` and `cancelReminderJob` act on. */
  predicate IsActive(rows: Reminders, id: ReminderId) {
    id in rows && rows[id].status in {Scheduled, Sending}
  }

  function SkipRow(rows: Reminders, id: ReminderId): Reminders {
    if IsScheduled(rows, id) then rows[id := rows[id].(status := Skipped)] else rows
  }

  /** The queue holds a job id once: adding it again changes nothing. */
  function AddJob(jobs: Jobs, id: ReminderId, readyAt: int): Jobs {
    if JobText(id) in jobs then jobs else jobs[JobText(id) := Job(id, readyAt)]
  }

  /** What goes wrong in the loop: the rows for which a statement on the tables throws, and those
      whose add the queue's store refuses. */
  datatype Faults = Faults(statements: set<ReminderId>, adds: set<ReminderId>)

  const NO_FAULTS := Faults({}, {})

  /** The turn of row `id` throws: it reaches its statement on the tables, or adds a job, in vain. */
  predicate TurnFails(m: Reminding, id: ReminderId, start: int, now: int, faults: Faults) {
    id in faults.statements || (FireTime(start, id.offset) > now && IsScheduled(m.rows, id) && id in faults.adds)
  }

  /** One turn of the loop in `enqueueForBooking`: `now` is the caller's clock, `added`
      the queue's when it takes the job. */
  function EnqueueOne(m: Reminding, id: ReminderId, start: int, now: int, added: int, faults: Faults): Reminding {
    var fire := FireTime(start, id.offset);
    if TurnFails(m, id, start, now, faults) then m
    else if fire <= now then m.(rows := SkipRow(m.rows, id))
    else if IsScheduled(m.rows, id) then m.(jobs := AddJob(m.jobs, id, added + (fire - now)))
    else m
  }

  /** `enqueueForBooking`: the loop ends early at the first turn that throws. */
  function EnqueueEach(m: Reminding, booking: Uuid, start: int, offsets: seq<int>, now: int, added: int,
                       faults: Faults): (Reminding, bool)
  {
    if offsets == [] then (m, true)
    else
      var n := |offsets| - 1;
      var before := EnqueueEach(m, booking, start, offsets[..n], now, added, faults);
      var id := ReminderId(booking, offsets[n]);
      if !before.1 then before
      else (EnqueueOne(before.0, id, start, now, added, faults), !TurnFails(before.0, id, start, now, faults))
  }

  /** One turn, by what the row, the clock and the faults say; every other row and job stays as it was. */
  lemma EnqueueOutcome(m: Reminding, id: ReminderId, start: int, now: int, added: int, faults: Faults)
    ensures var m', fire := EnqueueOne(m, id, start, now, added, faults), start - id.offset * 60 * 1000;
            var scheduled := id in m.rows && m.rows[id].status == Scheduled;
            if id in faults.statements || !scheduled || (fire > now && id in faults.adds) then m' == m
            else if fire <= now then m' == Reminding(m.rows[id := m.rows[id].(status := Skipped)], m.jobs)
            else m'.rows == m.rows &&
                 m'.jobs == if JobText(id) in m.jobs then m.jobs
                            else m.jobs[JobText(id) := Job(id, added + (fire - now))]
    ensures TurnFails(m, id, start, now, faults) <==>
            id in faults.statements ||
            (start - id.offset * 60 * 1000 > now && id in m.rows && m.rows[id].status == Scheduled && id in faults.adds)
  {
  }

  /** A row the reconciliation query returns: scheduled, its booking booked and joined to a slot. */
  predicate Selected(db: Db, id: ReminderId) {
    IsScheduled(db.reminders, id) && id.booking in db.bookings &&
    db.bookings[id.booking].status == Booked && db.bookings[id.booking].slot in db.slots
  }

  function StartOf(db: Db, id: ReminderId): int
    requires Selected(db, id)
  {
    db.slots[db.bookings[id.booking].slot].start
  }

  predicate AllSelected(db: Db, order: seq<ReminderId>) {
    forall i | 0 <= i < |order| :: Selected(db, order[i])
  }

  /** The rows in some order, each once. */
  ghost predicate Lists(db: Db, order: seq<ReminderId>) {
    AllSelected(db, order) && Distinct(order) && forall id | Selected(db, id) :: id in order
  }

  /** The reconciliation loop over the rows its query returned; a throwing turn is caught row by row. */
  function ReconcileEach(db: Db, m: Reminding, order: seq<ReminderId>, now: int, added: int,
                         faults: Faults): Reminding
    requires AllSelected(db, order)
  {
    if order == [] then m
    else
      var n := |order| - 1;
      EnqueueEach(ReconcileEach(db, m, order[..n], now, added, faults), order[n].booking, StartOf(db, order[n]),
                  [order[n].offset], now, added, faults).0
  }

  // ---------- what reconciliation achieves ----------

  /** Each job sits under the id made from the row it carries. */
  ghost predicate WellKeyed(jobs: Jobs) {
    forall k | k in jobs :: k == JobText(jobs[k].reminder)
  }

  predicate Past(db: Db, id: ReminderId, now: int)
    requires Selected(db, id)
  {
    FireTime(StartOf(db, id), id.offset) <= now
  }

  /** The rows after the loop has treated those in `order`. */
  ghost predicate RowsTreated(db: Db, rows: Reminders, order: seq<ReminderId>, now: int, faults: Faults)
    requires AllSelected(db, order)
  {
    rows.Keys == db.reminders.Keys &&
    forall id | id in rows ::
      rows[id] ==
      if id in order && Past(db, id, now) && id !in faults.statements
      then db.reminders[id].(status := Skipped) else db.reminders[id]
  }

  predicate Wanted(db: Db, id: ReminderId, order: seq<ReminderId>, now: int, faults: Faults)
    requires AllSelected(db, order)
  {
    id in order && !Past(db, id, now) && id !in faults.statements + faults.adds
  }

  /** The job `enqueueForBooking` builds for a row. */
  function JobFor(db: Db, id: ReminderId, now: int, added: int): Job
    requires Selected(db, id)
  {
    Job(id, added + (FireTime(StartOf(db, id), id.offset) - now))
  }

  /** The jobs after the loop: those held before, and one for each wanted row that had none. */
  ghost predicate JobsTreated(db: Db, before: Jobs, jobs: Jobs, order: seq<ReminderId>, now: int, added: int,
                              faults: Faults)
    requires AllSelected(db, order)
  {
    (forall k | k in before :: k in jobs && jobs[k] == before[k]) &&
    (forall id | Wanted(db, id, order, now, faults) ::
      JobText(id) in jobs && (JobText(id) !in before ==> jobs[JobText(id)] == JobFor(db, id, now, added))) &&
    (forall k | k in jobs && k !in before ::
      Wanted(db, jobs[k].reminder, order, now, faults) && k == JobText(jobs[k].reminder))
  }

  lemma EnqueueSingle(m: Reminding, id: ReminderId, start: int, now: int, added: int, faults: Faults)
    ensures EnqueueEach(m, id.booking, start, [id.offset], now, added, faults) ==
            (EnqueueOne(m, id, start, now, added, faults), !TurnFails(m, id, start, now, faults))
  {
    assert [id.offset][..0] == [];
    assert ReminderId(id.booking, id.offset) == id;
  }

  lemma WantedGrows(db: Db, order: seq<ReminderId>, id: ReminderId, now: int, faults: Faults)
    requires AllSelected(db, order) && Selected(db, id)
    ensures AllSelected(db, order + [id])
    ensures forall r :: Wanted(db, r, order + [id], now, faults) <==>
                        Wanted(db, r, order, now, faults) ||
                            (r == id && !Past(db, id, now) && id !in faults.statements + faults.adds)
  {
    assert forall r :: r in order + [id] <==> r in order || r == id;
  }

  lemma SkipTreated(db: Db, before: Jobs, jobs: Jobs, order: seq<ReminderId>, id: ReminderId, now: int, added: int,
                    faults: Faults)
    requires AllSelected(db, order) && Selected(db, id) && JobsTreated(db, before, jobs, order, now, added, faults)
    requires Past(db, id, now) || id in faults.statements + faults.adds
    ensures AllSelected(db, order + [id]) && JobsTreated(db, before, jobs, order + [id], now, added, faults)
  {
    WantedGrows(db, order, id, now, faults);
  }

  lemma AddTreated(db: Db, before: Jobs, jobs: Jobs, order: seq<ReminderId>, id: ReminderId, now: int, added: int,
                   faults: Faults)
    requires AllSelected(db, order) && Selected(db, id) && JobsTreated(db, before, jobs, order, now, added, faults)
    requires !Past(db, id, now) && id !in faults.statements + faults.adds
    ensures AllSelected(db, order + [id])
    ensures JobsTreated(db, before, AddJob(jobs, id, JobFor(db, id, now, added).readyAt), order + [id], now, added,
                        faults)
  {
    WantedGrows(db, order, id, now, faults);
    forall other | JobText(other) == JobText(id) ensures other == id {
      JobTextInjective(other, id);
    }
  }

  lemma TurnRows(db: Db, m: Reminding, m': Reminding, rest: seq<ReminderId>, id: ReminderId, now: int, added: int,
                 faults: Faults)
    requires AllSelected(db, rest) && Selected(db, id) && id !in rest
    requires RowsTreated(db, m.rows, rest, now, faults)
    requires m' == EnqueueOne(m, id, StartOf(db, id), now, added, faults)
    ensures AllSelected(db, rest + [id]) && RowsTreated(db, m'.rows, rest + [id], now, faults)
    ensures m'.jobs == if Past(db, id, now) || id in faults.statements + faults.adds then m.jobs
                       else AddJob(m.jobs, id, JobFor(db, id, now, added).readyAt)
  {
    assert forall r :: r in rest + [id] <==> r in rest || r == id;
    assert m.rows[id] == db.reminders[id];
  }

  /** The loop's effect does not depend on the order of the rows. */
  lemma {:induction false} ReconcileTreats(db: Db, jobs: Jobs, order: seq<ReminderId>, now: int, added: int,
                                           faults: Faults)
    requires AllSelected(db, order) && Distinct(order)
    ensures var m := ReconcileEach(db, Reminding(db.reminders, jobs), order, now, added, faults);
            RowsTreated(db, m.rows, order, now, faults) && JobsTreated(db, jobs, m.jobs, order, now, added, faults)
  {
    if order != [] {
      var n := |order| - 1;
      var rest, id := order[..n], order[n];
      assert order == rest + [id] && id !in rest;
      ReconcileTreats(db, jobs, rest, now, added, faults);
      var m := ReconcileEach(db, Reminding(db.reminders, jobs), rest, now, added, faults);
      EnqueueSingle(m, id, StartOf(db, id), now, added, faults);
      TurnRows(db, m, EnqueueOne(m, id, StartOf(db, id), now, added, faults), rest, id, now, added, faults);
      if Past(db, id, now) || id in faults.statements + faults.adds {
        SkipTreated(db, jobs, m.jobs, rest, id, now, added, faults);
      } else {
        AddTreated(db, jobs, m.jobs, rest, id, now, added, faults);
      }
    }
  }

  /** The queue agrees with the tables at `now`, but for the faults: every scheduled row of a booked
      booking is in the future and exactly one job carries its id. */
  ghost predicate Agree(db: Db, jobs: Jobs, now: int, faults: Faults) {
    forall id | Selected(db, id) ::
      (id !in faults.statements ==> !Past(db, id, now)) &&
      (id !in faults.statements + faults.adds ==> JobText(id) in jobs && jobs[JobText(id)].reminder == id) &&
      forall k | k in jobs && jobs[k].reminder == id :: k == JobText(id)
  }

  function After(db: Db, m: Reminding): Db {
    db.(reminders := m.rows)
  }

  /** From any tables and any queue, whatever a crash left out, reconciliation skips the
      past rows, keeps every job and makes the queue agree with the tables, but for the rows
      whose turn threw. */
  lemma ReconcileAgrees(db: Db, jobs: Jobs, order: seq<ReminderId>, now: int, added: int, faults: Faults)
    requires Lists(db, order) && WellKeyed(jobs)
    ensures var m := ReconcileEach(db, Reminding(db.reminders, jobs), order, now, added, faults);
            Agree(After(db, m), m.jobs, now, faults) && WellKeyed(m.jobs) &&
            (forall k | k in jobs :: k in m.jobs && m.jobs[k] == jobs[k]) &&
            (forall k | k in m.jobs && k !in jobs ::
              Selected(db, m.jobs[k].reminder) && m.jobs[k] == JobFor(db, m.jobs[k].reminder, now, added)) &&
            m.rows.Keys == db.reminders.Keys &&
            forall id | id in m.rows ::
              m.rows[id] ==
              if Selected(db, id) && Past(db, id, now) && id !in faults.statements
              then db.reminders[id].(status := Skipped) else db.reminders[id]
  {
    ReconcileTreats(db, jobs, order, now, added, faults);
    var m := ReconcileEach(db, Reminding(db.reminders, jobs), order, now, added, faults);
    forall id | Selected(After(db, m), id)
      ensures Selected(db, id) && (id !in faults.statements ==> !Past(db, id, now))
      ensures id !in faults.statements + faults.adds ==> JobText(id) in m.jobs && m.jobs[JobText(id)].reminder == id
    {
      assert id in order;
      assert m.rows[id] == db.reminders[id];
      if id !in faults.statements + faults.adds {
        assert Wanted(db, id, order, now, faults);
        if JobText(id) in jobs {
          JobTextInjective(id, jobs[JobText(id)].reminder);
        }
      }
    }
  }

  /** When the slot of a row's booking puts its fire time, if the row is one reconciliation looks at: scheduled,
      of a booked booking, with the slot stored. */
  function FireTimeSought(db: Db, id: ReminderId): Option<int> {
    if id in db.reminders && db.reminders[id].status == Scheduled && id.booking in db.bookings &&
       db.bookings[id.booking].status == Booked && db.bookings[id.booking].slot in db.slots
    then Some(db.slots[db.bookings[id.booking].slot].start - id.offset * 60 * 1000) else None
  }

  /** What reconciliation does to each row and for each row's job when nothing throws. */
  lemma ReconcileOutcome(db: Db, jobs: Jobs, order: seq<ReminderId>, now: int, added: int, id: ReminderId)
    requires Lists(db, order) && WellKeyed(jobs) && id in db.reminders
    ensures var m := ReconcileEach(db, Reminding(db.reminders, jobs), order, now, added, NO_FAULTS);
            id in m.rows &&
            match FireTimeSought(db, id)
            case None => m.rows[id] == db.reminders[id] && (JobText(id) in m.jobs <==> JobText(id) in jobs)
            case Some(fire) =>
              if fire <= now
              then m.rows[id] == db.reminders[id].(status := Skipped) &&
                  (JobText(id) in m.jobs <==> JobText(id) in jobs)
              else m.rows[id] == db.reminders[id] && JobText(id) in m.jobs &&
                   m.jobs[JobText(id)] == if JobText(id) in jobs then jobs[JobText(id)]
                       else Job(id, added + (fire - now))
  {
    ReconcileTreats(db, jobs, order, now, added, NO_FAULTS);
    var m := ReconcileEach(db, Reminding(db.reminders, jobs), order, now, added, NO_FAULTS);
    assert Selected(db, id) <==> FireTimeSought(db, id).Some?;
    assert id in order <==> Selected(db, id);
    if JobText(id) in m.jobs && JobText(id) !in jobs {
      JobTextInjective(id, m.jobs[JobText(id)].reminder);
    }
    if Selected(db, id) && !Past(db, id, now) {
      assert Wanted(db, id, order, now, NO_FAULTS);
    }
  }

  /** A second run at the same clock changes nothing, whatever throws this time. */
  lemma SecondRunChangesNothing(db: Db, jobs: Jobs, order: seq<ReminderId>, order': seq<ReminderId>, now: int,
                                added: int, added': int,
                                faults': Faults)
    requires Lists(db, order) && WellKeyed(jobs)
    requires var m := ReconcileEach(db, Reminding(db.reminders, jobs), order, now, added, NO_FAULTS);
             Lists(After(db, m), order')
    ensures var m := ReconcileEach(db, Reminding(db.reminders, jobs), order, now, added, NO_FAULTS);
            ReconcileEach(After(db, m), m, order', now, added', faults') == m
  {
    ReconcileAgrees(db, jobs, order, now, added, NO_FAULTS);
    var m := ReconcileEach(db, Reminding(db.reminders, jobs), order, now, added, NO_FAULTS);
    AgreeingIsFixed(After(db, m), m.jobs, order', now, added', faults');
  }

  lemma {:induction false} AgreeingIsFixed(db: Db, jobs: Jobs, order: seq<ReminderId>, now: int, added: int,
                                           faults: Faults)
    requires Agree(db, jobs, now, NO_FAULTS) && AllSelected(db, order)
    ensures ReconcileEach(db, Reminding(db.reminders, jobs), order, now, added, faults) == Reminding(db.reminders, jobs)
  {
    if order != [] {
      var n := |order| - 1;
      AgreeingIsFixed(db, jobs, order[..n], now, added, faults);
      EnqueueSingle(Reminding(db.reminders, jobs), order[n], StartOf(db, order[n]), now, added, faults);
    }
  }

  // ---------- withdrawing a booking's reminders ----------

  /** The active rows of a booking in some order, each once. */
  ghost predicate ListsActive(rows: Reminders, booking: Uuid, order: seq<ReminderId>) {
    forall id :: id in order <==> IsActive(rows, id) && id.booking == booking
  }

  /** Rows `UPDATE ... SET status = 'cancelled'` reaches among the active ones. */
  function WithdrawRows(rows: Reminders, booking: Uuid): Reminders {
    map id | id in rows ::
      if id.booking == booking && IsActive(rows, id) then rows[id].(status := ReminderCancelled) else rows[id]
  }

  /** `stuck` are the jobs the queue refuses to remove (a running job is locked). */
  function RemoveJob(jobs: Jobs, k: string, stuck: set<string>): Jobs {
    if k in stuck then jobs else jobs - {k}
  }

  function Texts(order: seq<ReminderId>): set<string> {
    set id | id in order :: JobText(id)
  }

  lemma TextsGrow(order: seq<ReminderId>, i: nat)
    requires i < |order|
    ensures Texts(order[..i + 1]) == Texts(order[..i]) + {JobText(order[i])}
  {
    assert order[..i + 1] == order[..i] + [order[i]];
    assert forall id :: id in order[..i + 1] <==> id in order[..i] || id == order[i];
  }

  lemma TextsOfActive(rows: Reminders, booking: Uuid, order: seq<ReminderId>)
    requires ListsActive(rows, booking, order)
    ensures Texts(order) == JobsOfActive(rows, booking)
  {
    forall id | id in order ensures IsActive(rows, id) && id.booking == booking {
    }
  }

  /** The ids of the jobs `cancelForBooking` looks up. */
  function JobsOfActive(rows: Reminders, booking: Uuid): set<string> {
    set id | id in rows && IsActive(rows, id) && id.booking == booking :: JobText(id)
  }

  function WithdrawJobs(rows: Reminders, jobs: Jobs, booking: Uuid, stuck: set<string>): Jobs {
    jobs - (JobsOfActive(rows, booking) - stuck)
  }

  /** What `cancelForBooking` leaves: no active row of the booking, no job of one unless it was
      stuck, and every other row and job as it was. */
  lemma WithdrawnExactly(rows: Reminders, jobs: Jobs, booking: Uuid, stuck: set<string>)
    requires WellKeyed(jobs)
    ensures var jobs' := WithdrawJobs(rows, jobs, booking, stuck);
            (forall id | id in rows && id.booking == booking :: !IsActive(WithdrawRows(rows, booking), id)) &&
            (forall id | IsActive(rows, id) && id.booking == booking && JobText(id) in jobs' :: JobText(id) in stuck) &&
            (forall k | k in jobs && jobs[k].reminder.booking != booking :: k in jobs' && jobs'[k] == jobs[k]) &&
            (forall id | id in rows && id.booking != booking :: WithdrawRows(rows, booking)[id] == rows[id])
  {
    forall k, id | k in jobs && jobs[k].reminder.booking != booking && id in rows && id.booking == booking &&
        k == JobText(id)
      ensures false
    {
      JobTextInjective(id, jobs[k].reminder);
    }
  }

  /** The rows withdrawn are the booking's scheduled and sending ones. */
  lemma WithdrawOutcome(rows: Reminders, booking: Uuid)
    ensures WithdrawRows(rows, booking).Keys == rows.Keys
    ensures forall id | id in rows ::
              WithdrawRows(rows, booking)[id] ==
              if id.booking == booking && rows[id].status in {Scheduled, Sending}
              then rows[id].(status := ReminderCancelled) else rows[id]
    ensures forall id | id in rows && id.booking == booking && rows[id].status in {Scheduled, Sending} ::
              JobText(id) in JobsOfActive(rows, booking)
  {
  }

  /** A committed reschedule has already cancelled the old booking's rows, so the clean-up
      that follows finds none: every job of that booking stays in the queue. */
  lemma MoveLeavesJobs(db: Db, c: Call, jobs: Jobs, stuck: set<string>)
    requires c.RescheduleCall? && c.WellFormed() && Reschedule(db, c).1.Created?
    requires forall r | r in db.reminders :: r.booking in db.bookings
    ensures WithdrawJobs(Reschedule(db, c).0.reminders, jobs, c.move.bookingId, stuck) == jobs
    ensures WithdrawRows(Reschedule(db, c).0.reminders, c.move.bookingId) == Reschedule(db, c).0.reminders
  {
    var rows := Reschedule(db, c).0.reminders;
    assert forall id | id in rows && id.booking == c.move.bookingId :: rows[id].status == ReminderCancelled;
    assert JobsOfActive(rows, c.move.bookingId) == {};
  }

  class ReminderQueueManager {
    const db: Database
    var jobs: Jobs

    constructor (db: Database)
      ensures this.db == db && jobs == map[]
    {
      this.db := db;
      jobs := map[];
    }

    function State(): Reminding
      reads this, db
    {
      Reminding(db.reminders, jobs)
    }

    method EnqueueForBooking(booking: Uuid, start: int, offsets: seq<int>, now: int, added: int, faults: Faults)
      returns (ok: bool)
      modifies this`jobs, db`reminders
      ensures (State(), ok) == old(EnqueueEach(State(), booking, start, offsets, now, added, faults))
    {
      ghost var m := State();
      for i := 0 to |offsets|
        invariant (State(), true) == EnqueueEach(m, booking, start, offsets[..i], now, added, faults)
      {
        var id := ReminderId(booking, offsets[i]);
        var fire := start - offsets[i] * 60 * 1000;
        assert offsets[..i + 1][..i] == offsets[..i];
        if id in faults.statements {
          FailedPrefix(m, booking, start, offsets, i + 1, now, added, faults);
          return false;
        }
        if fire <= now {
          if id in db.reminders && db.reminders[id].status == Scheduled {
            db.reminders := db.reminders[id := db.reminders[id].(status := Skipped)];
          }
          continue;
        }
        var delay := fire - now;
        if !(id in db.reminders && db.reminders[id].status == Scheduled) {
          continue;
        }
        if id in faults.adds {
          FailedPrefix(m, booking, start, offsets, i + 1, now, added, faults);
          return false;
        }
        if JobText(id) !in jobs {
          jobs := jobs[JobText(id) := Job(id, added + delay)];
        }
      }
      assert offsets[..|offsets|] == offsets;
      ok := true;
    }

    /** `order` is the answer of the reconciliation query. */
    method ReconcileScheduledReminders(order: seq<ReminderId>, now: int, added: int, faults: Faults)
      requires Lists(db.Contents(), order) && WellKeyed(jobs)
      modifies this`jobs, db`reminders
      ensures State() == old(ReconcileEach(db.Contents(), State(), order, now, added, faults))
      ensures Agree(db.Contents(), jobs, now, faults) && WellKeyed(jobs)
    {
      ghost var db0 := db.Contents();
      ghost var m := State();
      var slots, bookings := db.slots, db.bookings;
      for i := 0 to |order|
        invariant State() == ReconcileEach(db0, m, order[..i], now, added, faults)
      {
        assert order[..i + 1][..i] == order[..i];
        var _ := EnqueueForBooking(order[i].booking, slots[bookings[order[i].booking].slot].start, [order[i].offset],
                                   now, added, faults);
      }
      assert order[..|order|] == order;
      ReconcileAgrees(db0, m.jobs, order, now, added, faults);
      assert After(db0, State()) == db.Contents();
    }

    /** `order` is the answer of the query for the booking's active rows. */
    method CancelForBooking(booking: Uuid, order: seq<ReminderId>, stuck: set<string>)
      requires ListsActive(db.reminders, booking, order)
      modifies this`jobs, db`reminders
      ensures jobs == WithdrawJobs(old(db.reminders), old(jobs), booking, stuck)
      ensures db.reminders == WithdrawRows(old(db.reminders), booking)
    {
      for i := 0 to |order|
        invariant jobs == old(jobs) - (Texts(order[..i]) - stuck) && db.reminders == old(db.reminders)
      {
        TextsGrow(order, i);
        jobs := RemoveJob(jobs, JobText(order[i]), stuck);
      }
      assert order[..|order|] == order;
      TextsOfActive(db.reminders, booking, order);
      db.reminders := WithdrawRows(db.reminders, booking);
    }

    /** The row is named by its own id, the job by the booking and offset given with it. */
    method CancelReminderJob(id: ReminderId, booking: Uuid, offset: int, stuck: set<string>)
      modifies this`jobs, db`reminders
      ensures jobs == RemoveJob(old(jobs), JobText(ReminderId(booking, offset)), stuck)
      ensures !IsActive(db.reminders, id)
      ensures db.reminders == if old(IsActive(db.reminders, id))
                              then old(db.reminders)[id := old(db.reminders)[id].(status := ReminderCancelled)]
                                  else old(db.reminders)
    {
      jobs := RemoveJob(jobs, JobText(ReminderId(booking, offset)), stuck);
      if IsActive(db.reminders, id) {
        db.reminders := db.reminders[id := db.reminders[id].(status := ReminderCancelled)];
      }
    }
  }

  lemma {:induction false} FailedPrefix(m: Reminding, booking: Uuid, start: int, offsets: seq<int>, i: nat, now: int,
                                        added: int, faults: Faults)
    requires i <= |offsets| && !EnqueueEach(m, booking, start, offsets[..i], now, added, faults).1
    ensures EnqueueEach(m, booking, start, offsets, now, added, faults) ==
            EnqueueEach(m, booking, start, offsets[..i], now, added, faults)
  {
    if i == |offsets| {
      assert offsets[..i] == offsets;
    } else {
      var n := |offsets| - 1;
      assert offsets[..n][..i] == offsets[..i];
      FailedPrefix(m, booking, start, offsets[..n], i, now, added, faults);
    }
  }
}
