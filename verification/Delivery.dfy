/** Reminder delivery as a whole: requests, a queue that loses, keeps and repeats jobs, any
    number of workers that interleave and crash, and a provider that forgets keys after a day. */
module Delivery {
  import opened Tables
  import opened Requests
  import opened EmailKeys
  import opened TimeBounds
  import opened ReminderRows
  import opened ReminderQueue
  import opened ReminderWorker

  datatype World = World(now: int, db: Db, jobs: Jobs, workers: map<nat, Attempt>, provider: Provider)

  function Initial(now: int, db: Db): World {
    World(now, db, map[], map[], Provider(map[], []))
  }

  /** `Enqueue` is one turn of an enqueue or reconciliation loop, `Withdraw` a
      `cancelForBooking`; a job stays queued while workers attempt it, so two may at once. */
  datatype Action =
    | Tick(later: int)
    | Request(call: Call)
    | Enqueue(id: ReminderId, read: int)
    | Withdraw(booking: Uuid, stuck: set<string>)
    | Lose(job: string)
    | Begin(w: nat, job: string)
    | Advance(w: nat, x: Outside)
    | Crash(w: nat)

  /** The slot start an enqueue reads, if booking and slot exist. */
  function BookedStart(db: Db, booking: Uuid): Option<int> {
    if booking in db.bookings && db.bookings[booking].slot in db.slots
    then Some(db.slots[db.bookings[booking].slot].start) else None
  }

  function WithRows(s: World, m: Reminding): World {
    s.(db := s.db.(reminders := m.rows), jobs := m.jobs)
  }

  function StepRequest(s: World, c: Call): Option<World> {
    if !c.WellFormed() then None else Some(s.(db := Apply(s.db, c).0))
  }

  /** The caller's clock reading is not ahead of the queue's. */
  function StepEnqueue(s: World, id: ReminderId, read: int): Option<World> {
    if read > s.now || BookedStart(s.db, id.booking).None? then None
    else Some(WithRows(s,
                       EnqueueOne(Reminding(s.db.reminders, s.jobs), id, BookedStart(s.db, id.booking).value, read,
                                  s.now, NO_FAULTS)))
  }

  /** The queue releases a job no earlier than its delay allows. */
  function StepBegin(s: World, w: nat, job: string): Option<World> {
    if w in s.workers || job !in s.jobs || s.now < s.jobs[job].readyAt then None
    else Some(s.(workers := s.workers[w := Claiming(s.jobs[job].reminder)]))
  }

  /** At most the latency passes between the window test and the provider's answer. */
  predicate InTime(lim: Limits, s: World, a: Attempt) {
    a.Emitting? ==> s.now - a.checkedAt <= lim.latency
  }

  function StepAdvance(lim: Limits, s: World, w: nat, x: Outside): Option<World> {
    if w !in s.workers || !InTime(lim, s, s.workers[w]) then None
    else
      var m := AttemptStep(lim, s.db, s.provider, s.now, s.workers[w], x);
      Some(s.(db := s.db.(reminders := m.rows), provider := m.provider,
              workers := if m.next.None? then s.workers - {w} else s.workers[w := m.next.value]))
  }

  function Step(lim: Limits, s: World, a: Action): Option<World> {
    match a
    case Tick(later) => if later < s.now then None else Some(s.(now := later))
    case Request(c) => StepRequest(s, c)
    case Enqueue(id, read) => StepEnqueue(s, id, read)
    case Withdraw(booking, stuck) =>
      Some(WithRows(s,
                    Reminding(WithdrawRows(s.db.reminders, booking),
                              WithdrawJobs(s.db.reminders, s.jobs, booking, stuck))))
    case Lose(job) => Some(s.(jobs := s.jobs - {job}))
    case Begin(w, job) => StepBegin(s, w, job)
    case Advance(w, x) => StepAdvance(lim, s, w, x)
    case Crash(w) => Some(s.(workers := s.workers - {w}))
  }

  function Run(lim: Limits, s: World, actions: seq<Action>): Option<World> {
    if actions == [] then Some(s)
    else
      var before := Run(lim, s, actions[..|actions| - 1]);
      if before.None? then None else Step(lim, before.value, actions[|actions| - 1])
  }

  /** What the world may do to the workers and the queue: let time pass, lose a job, lose a worker's attempt, and
      begin one for a job that is ready; and what a clean-up does to rows and jobs. */
  lemma WorldMoves(lim: Limits, s: World, later: int, job: string, w: nat, booking: Uuid, stuck: set<string>)
    requires later >= s.now
    ensures Step(lim, s, Tick(later)) == Some(World(later, s.db, s.jobs, s.workers, s.provider))
    ensures Step(lim, s, Lose(job)).Some? && Step(lim, s, Lose(job)).value == s.(jobs := s.jobs - {job})
    ensures Step(lim, s, Crash(w)).Some? && Step(lim, s, Crash(w)).value == s.(workers := s.workers - {w})
    ensures Step(lim, s, Begin(w, job)).Some? <==> w !in s.workers && job in s.jobs && s.jobs[job].readyAt <= s.now
    ensures Step(lim, s, Action.Withdraw(booking, stuck)) ==
            Some(World(s.now, s.db.(reminders := WithdrawRows(s.db.reminders, booking)),
                       WithdrawJobs(s.db.reminders, s.jobs, booking, stuck), s.workers, s.provider))
  {
  }

  lemma {:induction false} RunPrefix(lim: Limits, s: World, actions: seq<Action>, i: nat)
    requires Run(lim, s, actions).Some? && i <= |actions|
    ensures Run(lim, s, actions[..i]).Some?
  {
    if i == |actions| {
      assert actions[..i] == actions;
    } else {
      assert actions[..|actions| - 1][..i] == actions[..i];
      RunPrefix(lim, s, actions[..|actions| - 1], i);
    }
  }

  // ---------- when emails go out ----------

  ghost predicate JobsTimed(s: World) {
    forall k | k in s.jobs ::
      s.jobs[k].reminder in s.db.reminders && s.db.reminders[s.jobs[k].reminder].fireAt <= s.jobs[k].readyAt
  }

  /** An attempt is about a stored row whose fire time has come, and remembers it rightly. */
  predicate AttemptTimed(lim: Limits, now: int, rows: Reminders, a: Attempt) {
    a.id in rows && rows[a.id].fireAt <= now &&
    (a.RowRead() ==> a.fireAt == rows[a.id].fireAt) &&
    (a.LoadingClient? || a.Emitting? ==> a.checkedAt <= now && a.checkedAt - a.fireAt <= lim.window)
  }

  ghost predicate WorkersTimed(lim: Limits, s: World) {
    forall w | w in s.workers :: AttemptTimed(lim, s.now, s.db.reminders, s.workers[w])
  }

  /** One email: after the fire time and at most the retry window plus the latency later. */
  predicate DeliveryTimed(lim: Limits, now: int, rows: Reminders, d: Email) {
    d.id in rows && rows[d.id].fireAt <= d.at <= now && d.at <= rows[d.id].fireAt + lim.window + lim.latency
  }

  ghost predicate DeliveriesTimed(lim: Limits, now: int, rows: Reminders, p: Provider) {
    forall i | 0 <= i < |p.delivered| :: DeliveryTimed(lim, now, rows, p.delivered[i])
  }

  /** Two emails for one reminder are at least the provider's retention apart. */
  predicate DeliveriesSpaced(lim: Limits, p: Provider) {
    forall i, j | 0 <= i < j < |p.delivered| && p.delivered[i].id == p.delivered[j].id ::
      p.delivered[j].at - p.delivered[i].at >= lim.retention
  }

  /** The provider's memory of a key is as recent as its last email under that key. */
  ghost predicate Remembered(p: Provider) {
    forall i | 0 <= i < |p.delivered| ::
      KeyText(p.delivered[i].id) in p.accepted && p.delivered[i].at <= p.accepted[KeyText(p.delivered[i].id)]
  }

  ghost predicate Inv(lim: Limits, s: World) {
    FireTimesRight(s.db) && JobsTimed(s) && WorkersTimed(lim, s) &&
    DeliveriesTimed(lim, s.now, s.db.reminders, s.provider) && DeliveriesSpaced(lim, s.provider) &&
        Remembered(s.provider)
  }

  /** Rows stay, and keep their fire times. */
  predicate RowsKept(rows: Reminders, rows': Reminders) {
    forall id | id in rows :: id in rows' && rows'[id].fireAt == rows[id].fireAt
  }

  lemma ApplyKeepsRows(db: Db, c: Call)
    requires c.WellFormed()
    ensures RowsKept(db.reminders, Apply(db, c).0.reminders)
  {
  }

  lemma RowsKeptInv(lim: Limits, s: World, db': Db)
    requires Inv(lim, s) && RowsKept(s.db.reminders, db'.reminders) && FireTimesRight(db')
    ensures Inv(lim, s.(db := db'))
  {
  }

  lemma RowsOnlyInv(lim: Limits, s: World, rows': Reminders)
    requires Inv(lim, s) && RowsKept(s.db.reminders, rows') && rows'.Keys == s.db.reminders.Keys
    ensures Inv(lim, s.(db := s.db.(reminders := rows')))
  {
    RowsKeptInv(lim, s, s.db.(reminders := rows'));
  }

  lemma EnqueueInv(lim: Limits, s: World, id: ReminderId, read: int)
    requires Inv(lim, s) && StepEnqueue(s, id, read).Some?
    ensures Inv(lim, StepEnqueue(s, id, read).value)
  {
    var m := EnqueueOne(Reminding(s.db.reminders, s.jobs), id, BookedStart(s.db, id.booking).value, read, s.now,
                        NO_FAULTS);
    RowsOnlyInv(lim, s, m.rows);
  }

  lemma AcceptInv(lim: Limits, s: World, id: ReminderId)
    requires Inv(lim, s) && id in s.db.reminders
    requires s.db.reminders[id].fireAt <= s.now <= s.db.reminders[id].fireAt + lim.window + lim.latency
    ensures Inv(lim, s.(provider := Accept(lim, s.provider, id, s.now)))
  {
    var p, p' := s.provider, Accept(lim, s.provider, id, s.now);
    if p' != p {
      var n := |p.delivered|;
      forall i | 0 <= i < n ensures KeyText(p.delivered[i].id) == KeyText(id) ==> p.delivered[i].id == id {
        if KeyText(p.delivered[i].id) == KeyText(id) {
          KeyTextInjective(p.delivered[i].id, id);
        }
      }
      assert forall i | 0 <= i < n :: p'.delivered[i] == p.delivered[i];
    }
  }

  lemma NextTimed(lim: Limits, s: World, w: nat, x: Outside)
    requires WorkersTimed(lim, s) && w in s.workers
    ensures var m := AttemptStep(lim, s.db, s.provider, s.now, s.workers[w], x);
            m.rows.Keys == s.db.reminders.Keys && RowsKept(s.db.reminders, m.rows) &&
            (m.next.Some? ==> AttemptTimed(lim, s.now, m.rows, m.next.value))
  {
  }

  lemma AdvanceInv(lim: Limits, s: World, w: nat, x: Outside)
    requires Inv(lim, s) && StepAdvance(lim, s, w, x).Some?
    ensures Inv(lim, StepAdvance(lim, s, w, x).value)
  {
    var a := s.workers[w];
    var m := AttemptStep(lim, s.db, s.provider, s.now, a, x);
    NextTimed(lim, s, w, x);
    var s1 := s.(provider := m.provider);
    if a.Emitting? && x.Reaches() {
      AcceptInv(lim, s, a.id);
    }
    RowsOnlyInv(lim, s1, m.rows);
  }

  lemma StepInv(lim: Limits, s: World, a: Action)
    requires Inv(lim, s) && Step(lim, s, a).Some?
    ensures Inv(lim, Step(lim, s, a).value)
  {
    match a
    case Request(c) =>
      ApplyKeepsRows(s.db, c);
      ApplyFireTimes(s.db, c);
      RowsKeptInv(lim, s, Apply(s.db, c).0);
    case Enqueue(id, read) => EnqueueInv(lim, s, id, read);
    case Withdraw(booking, stuck) => RowsOnlyInv(lim, s, WithdrawRows(s.db.reminders, booking));
    case Advance(w, x) => AdvanceInv(lim, s, w, x);
    case _ =>
  }

  lemma {:induction false} RunInv(lim: Limits, s: World, actions: seq<Action>)
    requires Inv(lim, s) && Run(lim, s, actions).Some?
    ensures Inv(lim, Run(lim, s, actions).value)
  {
    if actions != [] {
      RunInv(lim, s, actions[..|actions| - 1]);
      StepInv(lim, Run(lim, s, actions[..|actions| - 1]).value, actions[|actions| - 1]);
    }
  }

  /** Over every run, an email leaves no earlier than its fire time and at most the retry window
      plus the latency after it, and two for one reminder leave at least a day apart. */
  lemma DeliveryTimes(lim: Limits, now: int, db: Db, actions: seq<Action>)
    requires FireTimesRight(db) && Run(lim, Initial(now, db), actions).Some?
    ensures var s := Run(lim, Initial(now, db), actions).value;
            DeliveriesTimed(lim, s.now, s.db.reminders, s.provider) && DeliveriesSpaced(lim, s.provider)
  {
    RunInv(lim, Initial(now, db), actions);
  }

  predicate Once(p: Provider) {
    forall i, j | 0 <= i < j < |p.delivered| :: p.delivered[i].id != p.delivered[j].id
  }

  /** When window and latency together stay below the retention, no reminder is ever emailed twice. */
  lemma AtMostOneEmail(lim: Limits, now: int, db: Db, actions: seq<Action>)
    requires lim.window + lim.latency < lim.retention
    requires FireTimesRight(db) && Run(lim, Initial(now, db), actions).Some?
    ensures Once(Run(lim, Initial(now, db), actions).value.provider)
  {
    DeliveryTimes(lim, now, db, actions);
  }

  /** When they stay below twice the retention, there is never a third email. */
  lemma AtMostTwoEmails(lim: Limits, now: int, db: Db, actions: seq<Action>, i: nat, j: nat, k: nat)
    requires lim.window + lim.latency < 2 * lim.retention
    requires FireTimesRight(db) && Run(lim, Initial(now, db), actions).Some?
    requires i < j < k < |Run(lim, Initial(now, db), actions).value.provider.delivered|
    ensures var sent := Run(lim, Initial(now, db), actions).value.provider.delivered;
            !(sent[i].id == sent[j].id == sent[k].id)
  {
    DeliveryTimes(lim, now, db, actions);
  }

  // ---------- every run keeps the queue well keyed ----------

  /** No action of the system puts a job under another row's id. */
  lemma StepWellKeyed(lim: Limits, s: World, a: Action)
    requires WellKeyed(s.jobs) && Step(lim, s, a).Some?
    ensures WellKeyed(Step(lim, s, a).value.jobs)
  {
  }

  lemma {:induction false} RunWellKeyed(lim: Limits, s: World, actions: seq<Action>)
    requires WellKeyed(s.jobs) && Run(lim, s, actions).Some?
    ensures WellKeyed(Run(lim, s, actions).value.jobs)
  {
    if actions != [] {
      RunWellKeyed(lim, s, actions[..|actions| - 1]);
      StepWellKeyed(lim, Run(lim, s, actions[..|actions| - 1]).value, actions[|actions| - 1]);
    }
  }

  /** In whatever state losses, crashes and clean-ups have left queue and tables, one reconciliation
      makes them agree. */
  lemma ReconcilesFromAnyRun(lim: Limits, now: int, db: Db, actions: seq<Action>, order: seq<ReminderId>,
                             read: int, added: int, faults: Faults)
    requires Run(lim, Initial(now, db), actions).Some?
    requires Lists(Run(lim, Initial(now, db), actions).value.db, order)
    ensures var s := Run(lim, Initial(now, db), actions).value;
            var m := ReconcileEach(s.db, Reminding(s.db.reminders, s.jobs), order, read, added, faults);
            Agree(After(s.db, m), m.jobs, read, faults)
  {
    var s := Run(lim, Initial(now, db), actions).value;
    RunWellKeyed(lim, Initial(now, db), actions);
    ReconcileAgrees(s.db, s.jobs, order, read, added, faults);
  }

  // ---------- what 'sent' means ----------

  predicate Emailed(p: Provider, id: ReminderId) {
    exists i | 0 <= i < |p.delivered| :: p.delivered[i].id == id
  }

  /** A key is remembered only after an email for its reminder. */
  ghost predicate KeysEmailed(p: Provider) {
    forall id: ReminderId | KeyText(id) in p.accepted :: Emailed(p, id)
  }

  /** A row is marked sent, or about to be, only after an email for it. */
  ghost predicate SentEmailed(s: World) {
    KeysEmailed(s.provider) &&
    (forall id | id in s.db.reminders && s.db.reminders[id].status == Sent :: Emailed(s.provider, id)) &&
    (forall w | w in s.workers && s.workers[w].Marking? && s.workers[w].status == Sent ::
      Emailed(s.provider, s.workers[w].id))
  }

  /** No row becomes sent. */
  predicate NoneSent(rows: Reminders, rows': Reminders) {
    forall id | id in rows' && rows'[id].status == Sent :: id in rows && rows[id].status == Sent
  }

  lemma RequestSendsNone(db: Db, c: Call)
    requires c.WellFormed()
    ensures NoneSent(db.reminders, Apply(db, c).0.reminders)
  {
  }

  lemma AcceptEmails(lim: Limits, p: Provider, id: ReminderId, at: int)
    requires KeysEmailed(p)
    ensures KeysEmailed(Accept(lim, p, id, at)) && Emailed(Accept(lim, p, id, at), id)
    ensures forall other :: Emailed(p, other) ==> Emailed(Accept(lim, p, id, at), other)
  {
    var p' := Accept(lim, p, id, at);
    if p' != p {
      var n := |p.delivered|;
      assert p'.delivered[n].id == id;
      forall other | Emailed(p, other) ensures Emailed(p', other) {
        var i :| 0 <= i < n && p.delivered[i].id == other;
        assert p'.delivered[i].id == other;
      }
      forall other: ReminderId | KeyText(other) in p'.accepted ensures Emailed(p', other) {
        if KeyText(other) == KeyText(id) {
          KeyTextInjective(other, id);
        }
      }
    }
  }

  lemma AdvanceSent(lim: Limits, s: World, w: nat, x: Outside)
    requires SentEmailed(s) && StepAdvance(lim, s, w, x).Some?
    ensures SentEmailed(StepAdvance(lim, s, w, x).value)
  {
    var a := s.workers[w];
    if a.Emitting? && x.Reaches() {
      AcceptEmails(lim, s.provider, a.id, s.now);
    }
  }

  lemma StepSent(lim: Limits, s: World, a: Action)
    requires SentEmailed(s) && Step(lim, s, a).Some?
    ensures SentEmailed(Step(lim, s, a).value)
  {
    match a
    case Request(c) => RequestSendsNone(s.db, c);
    case Advance(w, x) => AdvanceSent(lim, s, w, x);
    case _ =>
  }

  lemma {:induction false} RunSent(lim: Limits, s: World, actions: seq<Action>)
    requires SentEmailed(s) && Run(lim, s, actions).Some?
    ensures SentEmailed(Run(lim, s, actions).value)
  {
    if actions != [] {
      RunSent(lim, s, actions[..|actions| - 1]);
      StepSent(lim, Run(lim, s, actions[..|actions| - 1]).value, actions[|actions| - 1]);
    }
  }

  /** Over every run from tables without sent rows, a row that says 'sent' has had its email. */
  lemma SentWasEmailed(lim: Limits, now: int, db: Db, actions: seq<Action>, id: ReminderId)
    requires forall r | r in db.reminders :: db.reminders[r].status != Sent
    requires Run(lim, Initial(now, db), actions).Some?
    ensures var s := Run(lim, Initial(now, db), actions).value;
            id in s.db.reminders && s.db.reminders[id].status == Sent ==> Emailed(s.provider, id)
  {
    RunSent(lim, Initial(now, db), actions);
  }
}
