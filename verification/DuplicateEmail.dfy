/** How far the at-most-once promise of reminder emails reaches: exactly to a send that takes
    no measurable time after the window test. */
module DuplicateEmail {
  import opened Tables
  import opened Requests
  import opened EmailKeys
  import opened TimeBounds
  import opened ReminderRows
  import opened ReminderQueue
  import opened ReminderWorker
  import opened Delivery

  /** The client takes email; the request arrives but its reply is lost on the way back. */
  const LOST := Outside(true, false, true, Transient)

  lemma Extend(lim: Limits, s0: World, actions: seq<Action>, s: World, a: Action, s': World)
    requires Run(lim, s0, actions) == Some(s) && Step(lim, s, a) == Some(s')
    ensures Run(lim, s0, actions + [a]) == Some(s')
  {
    assert (actions + [a])[..|actions|] == actions;
  }

  /** A row a worker may still send, in a world where nobody works. */
  predicate Sendable(lim: Limits, s: World, id: ReminderId) {
    s.workers == map[] && id in s.db.reminders &&
    id.booking in s.db.bookings && s.db.bookings[id.booking].status == Booked &&
    s.now - s.db.reminders[id].fireAt <= lim.window
  }

  function Working(s: World, a: Attempt): World {
    s.(workers := map[0 := a])
  }

  /** The world after an attempt whose send takes `wait` milliseconds and whose reply is lost. */
  function AfterLost(lim: Limits, s: World, id: ReminderId, wait: nat): World {
    s.(now := s.now + wait, workers := map[], provider := Accept(lim, s.provider, id, s.now + wait))
  }

  /** One statement of the only worker, which leaves tables and provider alone. */
  lemma ReadStep(lim: Limits, s0: World, actions: seq<Action>, s: World, a: Attempt, a': Attempt)
    requires Run(lim, s0, actions) == Some(Working(s, a)) && !a.Emitting?
    requires AttemptStep(lim, s.db, s.provider, s.now, a, LOST) == Moved(s.db.reminders, s.provider, Some(a'))
    ensures Run(lim, s0, actions + [Advance(0, LOST)]) == Some(Working(s, a'))
  {
    assert s.db.(reminders := s.db.reminders) == s.db;
    assert map[0 := a][0 := a'] == map[0 := a'];
    Extend(lim, s0, actions, Working(s, a), Advance(0, LOST), Working(s, a'));
  }

  lemma FromLoading(lim: Limits, s0: World, actions: seq<Action>, s: World, id: ReminderId, wait: nat)
      returns (more: seq<Action>)
    requires Sendable(lim, s, id) && s.db.reminders[id].status == Sending && wait <= lim.latency
    requires Run(lim, s0, actions) == Some(Working(s, Loading(id)))
    ensures Run(lim, s0, more) == Some(AfterLost(lim, s, id, wait))
  {
    var fireAt, go := s.db.reminders[id].fireAt, [Advance(0, LOST)];
    ReadStep(lim, s0, actions, s, Loading(id), LoadingBooking(id, fireAt));
    ReadStep(lim, s0, actions + go, s, LoadingBooking(id, fireAt), CheckingWindow(id, fireAt));
    ReadStep(lim, s0, actions + go + go, s, CheckingWindow(id, fireAt), LoadingClient(id, fireAt, s.now));
    ReadStep(lim, s0, actions + go + go + go, s, LoadingClient(id, fireAt, s.now), Emitting(id, fireAt, s.now));
    more := FromEmitting(lim, s0, actions + go + go + go + go, s, id, fireAt, wait);
  }

  lemma FromEmitting(lim: Limits, s0: World, actions: seq<Action>, s: World, id: ReminderId, fireAt: int, wait: nat)
    returns (more: seq<Action>)
    requires wait <= lim.latency && s.workers == map[]
    requires Run(lim, s0, actions) == Some(Working(s, Emitting(id, fireAt, s.now)))
    ensures Run(lim, s0, more) == Some(AfterLost(lim, s, id, wait))
  {
    var s1 := Working(s, Emitting(id, fireAt, s.now));
    var s2 := s1.(now := s.now + wait);
    Extend(lim, s0, actions, s1, Tick(s.now + wait), s2);
    assert s2.db.(reminders := s2.db.reminders) == s2.db;
    Extend(lim, s0, actions + [Tick(s.now + wait)], s2, Advance(0, LOST), AfterLost(lim, s, id, wait));
    more := actions + [Tick(s.now + wait)] + [Advance(0, LOST)];
  }

  predicate Queued(s: World, id: ReminderId) {
    JobText(id) in s.jobs && s.jobs[JobText(id)].reminder == id && s.jobs[JobText(id)].readyAt <= s.now
  }

  /** The first attempt claims the row and sends. */
  lemma FirstAttempt(lim: Limits, s0: World, actions: seq<Action>, s: World, id: ReminderId, wait: nat)
    returns (more: seq<Action>, s': World)
    requires Sendable(lim, s, id) && Queued(s, id) && s.db.reminders[id].status == Scheduled && wait <= lim.latency
    requires Run(lim, s0, actions) == Some(s)
    ensures s' ==
            AfterLost(lim, s.(db := s.db.(reminders := s.db.reminders[id := Lease(s.db.reminders[id], s.now)])), id,
                      wait)
    ensures Run(lim, s0, more) == Some(s')
  {
    var claimed := s.(db := s.db.(reminders := s.db.reminders[id := Lease(s.db.reminders[id], s.now)]));
    Extend(lim, s0, actions, s, Begin(0, JobText(id)), Working(s, Claiming(id)));
    assert map[0 := Claiming(id)][0 := Loading(id)] == map[0 := Loading(id)];
    Extend(lim, s0, actions + [Begin(0, JobText(id))], Working(s, Claiming(id)), Advance(0, LOST),
           Working(claimed, Loading(id)));
    more := FromLoading(lim, s0, actions + [Begin(0, JobText(id))] + [Advance(0, LOST)], claimed, id, wait);
    s' := AfterLost(lim, claimed, id, wait);
  }

  /** A later one finds it sending and sends again. */
  lemma RepeatedAttempt(lim: Limits, s0: World, actions: seq<Action>, s: World, id: ReminderId, wait: nat)
    returns (more: seq<Action>)
    requires Sendable(lim, s, id) && Queued(s, id) && s.db.reminders[id].status == Sending && wait <= lim.latency
    requires Run(lim, s0, actions) == Some(s)
    ensures Run(lim, s0, more) == Some(AfterLost(lim, s, id, wait))
  {
    var begun := actions + [Begin(0, JobText(id))];
    Extend(lim, s0, actions, s, Begin(0, JobText(id)), Working(s, Claiming(id)));
    ReadStep(lim, s0, begun, s, Claiming(id), Rechecking(id));
    ReadStep(lim, s0, begun + [Advance(0, LOST)], s, Rechecking(id), Loading(id));
    more := FromLoading(lim, s0, begun + [Advance(0, LOST)] + [Advance(0, LOST)], s, id, wait);
  }

  // ---------- one booking two days ahead ----------

  const SLOT := Uuid("slot")
  const BOOKING := Uuid("booking")
  const HOUR_BEFORE := ReminderId(BOOKING, 60)
  const START := 48 * MS_PER_HOUR
  const FIRE := 47 * MS_PER_HOUR
  const EMPTY := Db(map[SLOT := Slot(Uuid("provider"), START, START + MS_PER_HOUR, SlotOpen)], map[], map[], map[])
  const BOOK := CreateCall(CreateRequest(SLOT, Uuid("client"), None, "UTC"), 0, 4, 0, 0, BOOKING)

  lemma BookingMade()
    ensures Apply(EMPTY, BOOK).1 == Created(BOOKING)
    ensures var db := Apply(EMPTY, BOOK).0;
            BOOKING in db.bookings && db.bookings[BOOKING] == Booking(SLOT, Uuid("client"), "UTC", Booked, 1) &&
            SLOT in db.slots && db.slots[SLOT].start == START &&
            HOUR_BEFORE in db.reminders && db.reminders[HOUR_BEFORE] == Reminder(FIRE, Scheduled, 0, None)
  {
    assert Create(EMPTY, BOOK).1 == Created(BOOKING);
    CreateReminderRows(EMPTY, BOOK);
  }

  /** From a fresh booking at time zero: its 60-minute reminder is queued and its hour comes. */
  lemma HourComes(lim: Limits, s0: World, first: seq<Action>, s1: World) returns (actions: seq<Action>, s: World)
    requires Run(lim, s0, first) == Some(s1) && s1.now == 0 && s1.jobs == map[] && s1.workers == map[]
    requires BOOKING in s1.db.bookings && s1.db.bookings[BOOKING].slot == SLOT &&
             s1.db.bookings[BOOKING].status == Booked
    requires SLOT in s1.db.slots && s1.db.slots[SLOT].start == START
    requires HOUR_BEFORE in s1.db.reminders && s1.db.reminders[HOUR_BEFORE] == Reminder(FIRE, Scheduled, 0, None)
    ensures Run(lim, s0, actions) == Some(s)
    ensures Sendable(lim, s, HOUR_BEFORE) && Queued(s, HOUR_BEFORE) && s.now == FIRE && s.provider == s1.provider
    ensures s.db == s1.db
  {
    assert s1.db.(reminders := s1.db.reminders) == s1.db;
    var s2 := s1.(jobs := map[JobText(HOUR_BEFORE) := Job(HOUR_BEFORE, FIRE)]);
    assert AddJob(s1.jobs, HOUR_BEFORE, FIRE) == s2.jobs;
    s := s2.(now := FIRE);
    Extend(lim, s0, first, s1, Enqueue(HOUR_BEFORE, 0), s2);
    Extend(lim, s0, first + [Enqueue(HOUR_BEFORE, 0)], s2, Tick(FIRE), s);
    actions := first + [Enqueue(HOUR_BEFORE, 0)] + [Tick(FIRE)];
  }

  lemma Prelude(lim: Limits) returns (actions: seq<Action>, s: World)
    ensures Run(lim, Initial(0, EMPTY), actions) == Some(s)
    ensures Sendable(lim, s, HOUR_BEFORE) && Queued(s, HOUR_BEFORE) && s.now == FIRE &&
            s.provider == Provider(map[], [])
    ensures s.db.reminders[HOUR_BEFORE] == Reminder(FIRE, Scheduled, 0, None)
  {
    var s0 := Initial(0, EMPTY);
    var s1 := s0.(db := Apply(EMPTY, BOOK).0);
    BookingMade();
    Extend(lim, s0, [], s0, Request(BOOK), s1);
    actions, s := HourComes(lim, s0, [] + [Request(BOOK)], s1);
  }

  function Min(a: int, b: int): int {
    if a < b then a else b
  }

  /** As soon as window and latency reach the retention, a retry that passes the window test can reach the provider
      just when the key is forgotten: the client gets a second email. */
  lemma SecondEmail(lim: Limits) returns (actions: seq<Action>)
    requires lim.window + lim.latency >= lim.retention
    ensures Run(lim, Initial(0, EMPTY), actions).Some?
    ensures Run(lim, Initial(0, EMPTY), actions).value.provider.delivered ==
            [Email(HOUR_BEFORE, FIRE), Email(HOUR_BEFORE, FIRE + lim.retention)]
  {
    var s0 := Initial(0, EMPTY);
    var before, s := Prelude(lim);
    var first, s1 := FirstAttempt(lim, s0, before, s, HOUR_BEFORE, 0);
    assert s1.provider == Provider(map[KeyText(HOUR_BEFORE) := FIRE], [Email(HOUR_BEFORE, FIRE)]);
    var test := FIRE + Min(lim.window, lim.retention);
    var s2 := s1.(now := test);
    Extend(lim, s0, first, s1, Tick(test), s2);
    actions := RepeatedAttempt(lim, s0, first + [Tick(test)], s2, HOUR_BEFORE, FIRE + lim.retention - test);
  }

  /** Every run from every sound state of the tables sends each reminder at most once. */
  ghost predicate NeverTwice(lim: Limits) {
    forall now, db, actions ::
      FireTimesRight(db) && Run(lim, Initial(now, db), actions).Some? ==>
      Once(Run(lim, Initial(now, db), actions).value.provider)
  }

  /** For any retry window, retention and latency: reminders are emailed at most once exactly when
      window and latency together are below the retention. */
  lemma NeverTwiceExactly(lim: Limits)
    ensures NeverTwice(lim) <==> lim.window + lim.latency < lim.retention
  {
    if lim.window + lim.latency < lim.retention {
      forall now, db, actions | FireTimesRight(db) && Run(lim, Initial(now, db), actions).Some?
        ensures Once(Run(lim, Initial(now, db), actions).value.provider)
      {
        AtMostOneEmail(lim, now, db, actions);
      }
    } else {
      var actions := SecondEmail(lim);
      var p := Run(lim, Initial(0, EMPTY), actions).value.provider;
      assert p.delivered[0].id == p.delivered[1].id;
      assert FireTimesRight(EMPTY);
    }
  }

  /** With the constants in force: exactly when no time passes between test and send. */
  lemma ChronosNeverTwice(latency: nat)
    ensures NeverTwice(Chronos(latency)) <==> latency == 0
    ensures Chronos(latency) == Limits(24 * 60 * 60 * 1000 - 1, 24 * 60 * 60 * 1000, latency)
  {
    NeverTwiceExactly(Chronos(latency));
  }
}
