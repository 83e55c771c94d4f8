/** What a send has read, which attempts never send, and the history of every reminder row. */
module DeliveryReads {
  import opened Tables
  import opened Requests
  import opened ReminderRows
  import opened ReminderQueue
  import opened ReminderWorker
  import opened Delivery

  // ---------- every send follows its reads ----------

  /** The world after the first `i` actions of a run. */
  function At(lim: Limits, s: World, actions: seq<Action>, i: nat): World
    requires i <= |actions| && Run(lim, s, actions).Some?
  {
    RunPrefix(lim, s, actions, i);
    Run(lim, s, actions[..i]).value
  }

  lemma AtEarlier(lim: Limits, s: World, actions: seq<Action>, n: nat, i: nat)
    requires i <= n <= |actions| && Run(lim, s, actions).Some? && Run(lim, s, actions[..n]).Some?
    ensures At(lim, s, actions[..n], i) == At(lim, s, actions, i)
  {
    assert actions[..n][..i] == actions[..i];
  }

  predicate IsSending(db: Db, id: ReminderId) {
    id in db.reminders && db.reminders[id].status == Sending
  }

  predicate IsBooked(db: Db, id: ReminderId) {
    id.booking in db.bookings && db.bookings[id.booking].status == Booked
  }

  /** At action `i` worker `w` reads the row of `id` as sending. */
  predicate ReadsSending(lim: Limits, s: World, actions: seq<Action>, i: nat, w: nat, id: ReminderId)
    requires i < |actions| && Run(lim, s, actions).Some?
  {
    var s' := At(lim, s, actions, i);
    actions[i].Advance? && actions[i].w == w && w in s'.workers && s'.workers[w] == Loading(id) && IsSending(s'.db, id)
  }

  /** At action `i` worker `w` reads the booking of `id` as booked. */
  predicate ReadsBooked(lim: Limits, s: World, actions: seq<Action>, i: nat, w: nat, id: ReminderId)
    requires i < |actions| && Run(lim, s, actions).Some?
  {
    var s' := At(lim, s, actions, i);
    actions[i].Advance? && actions[i].w == w && w in s'.workers &&
    s'.workers[w].LoadingBooking? && s'.workers[w].id == id && IsBooked(s'.db, id)
  }

  /** From action `i` on, worker `w` stays on this attempt. */
  predicate SameAttempt(actions: seq<Action>, i: nat, w: nat)
    requires i <= |actions|
  {
    forall k | i <= k < |actions| :: actions[k] != Crash(w) && !(actions[k].Begin? && actions[k].w == w)
  }

  /** What the last action of a run may have done to a worker that now has an attempt. */
  lemma WorkerStep(lim: Limits, s: World, a: Action, s': World, w: nat)
    requires Step(lim, s, a) == Some(s') && w in s'.workers && s'.workers[w].RowRead()
    ensures w in s.workers && s.workers[w].id == s'.workers[w].id && SameAttempt([a], 0, w)
    ensures if a.Advance? && a.w == w
            then (s'.workers[w].LoadingBooking? ==> s.workers[w].Loading? && IsSending(s.db, s.workers[w].id)) &&
                 (s'.workers[w].Cleared() ==>
                   s.workers[w].Cleared() || (s.workers[w].LoadingBooking? && IsBooked(s.db, s.workers[w].id)))
            else s'.workers[w] == s.workers[w]
  {
  }

  lemma {:induction false} RowReadBefore(lim: Limits, s: World, actions: seq<Action>, after: World, w: nat)
      returns (i: nat)
    requires s.workers == map[] && Run(lim, s, actions) == Some(after) && w in after.workers &&
             after.workers[w].RowRead()
    ensures i < |actions| && SameAttempt(actions, i, w) && ReadsSending(lim, s, actions, i, w, after.workers[w].id)
  {
    var n := |actions| - 1;
    var before, a := Run(lim, s, actions[..n]).value, actions[n];
    WorkerStep(lim, before, a, after, w);
    SameAttemptLast(actions, w);
    if before.workers[w].RowRead() {
      i := RowReadBefore(lim, s, actions[..n], before, w);
      AtEarlier(lim, s, actions, n, i);
    } else {
      i := n;
    }
  }

  lemma SameAttemptLast(actions: seq<Action>, w: nat)
    requires actions != [] && SameAttempt([actions[|actions| - 1]], 0, w)
    ensures forall i: nat | i < |actions| && SameAttempt(actions[..|actions| - 1], i, w) :: SameAttempt(actions, i, w)
    ensures SameAttempt(actions, |actions| - 1, w)
  {
    var last := [actions[|actions| - 1]];
    assert last[0] != Crash(w) && !(last[0].Begin? && last[0].w == w);
  }

  /** A worker past its booking check has read the row as sending, then the booking as booked, in this attempt. */
  lemma {:induction false} ReadsBefore(lim: Limits, s: World, actions: seq<Action>, after: World, w: nat)
      returns (i: nat, k: nat)
    requires s.workers == map[] && Run(lim, s, actions) == Some(after) && w in after.workers &&
             after.workers[w].Cleared()
    ensures i < k < |actions| && SameAttempt(actions, i, w)
    ensures ReadsSending(lim, s, actions, i, w, after.workers[w].id)
    ensures ReadsBooked(lim, s, actions, k, w, after.workers[w].id)
  {
    var n := |actions| - 1;
    var before, a := Run(lim, s, actions[..n]).value, actions[n];
    WorkerStep(lim, before, a, after, w);
    SameAttemptLast(actions, w);
    if before.workers[w].Cleared() {
      i, k := ReadsBefore(lim, s, actions[..n], before, w);
      AtEarlier(lim, s, actions, n, k);
    } else {
      i := RowReadBefore(lim, s, actions[..n], before, w);
      k := n;
    }
    AtEarlier(lim, s, actions, n, i);
  }

  /** Only a send changes the provider. */
  lemma ProviderStep(lim: Limits, s: World, a: Action, s': World)
    requires Step(lim, s, a) == Some(s') && s'.provider != s.provider
    ensures a.Advance? && a.w in s.workers && s.workers[a.w].Emitting?
  {
  }

  /** Whenever the provider's state changes, the worker that changed it had, in this same
      attempt, read the row as sending and after that the booking as booked. */
  lemma SendFollowsReads(lim: Limits, s: World, actions: seq<Action>, a: Action, s': World) returns (i: nat, k: nat)
    requires s.workers == map[] && Run(lim, s, actions).Some?
    requires Step(lim, Run(lim, s, actions).value, a) == Some(s') && s'.provider != Run(lim, s, actions).value.provider
    ensures a.Advance? && a.w in Run(lim, s, actions).value.workers
    ensures i < k < |actions| && SameAttempt(actions, i, a.w)
    ensures ReadsSending(lim, s, actions, i, a.w, Run(lim, s, actions).value.workers[a.w].id)
    ensures ReadsBooked(lim, s, actions, k, a.w, Run(lim, s, actions).value.workers[a.w].id)
  {
    ProviderStep(lim, Run(lim, s, actions).value, a, s');
    i, k := ReadsBefore(lim, s, actions, Run(lim, s, actions).value, a.w);
  }

  /** An attempt keeps its reminder. */
  lemma {:induction false} SameId(lim: Limits, s: World, actions: seq<Action>, i: nat, w: nat)
    requires Run(lim, s, actions).Some? && i <= |actions| && SameAttempt(actions, i, w)
    requires w in Run(lim, s, actions).value.workers
    ensures w in At(lim, s, actions, i).workers
    ensures At(lim, s, actions, i).workers[w].id == Run(lim, s, actions).value.workers[w].id
  {
    var n := |actions| - 1;
    if i == |actions| {
      assert actions[..i] == actions;
    } else {
      SameId(lim, s, actions[..n], i, w);
      AtEarlier(lim, s, actions, n, i);
    }
  }

  // ---------- attempts that never send ----------

  /** PATCH status to 'booked', the one request that revives a booking. */
  predicate Revives(a: Action) {
    a.Request? && a.call.PatchCall? && a.call.to == "booked"
  }

  predicate Ended(db: Db, b: Uuid) {
    b in db.bookings && db.bookings[b].status != Booked
  }

  lemma EndedStays(db: Db, c: Call, b: Uuid)
    requires c.WellFormed() && Ended(db, b) && !(c.PatchCall? && c.to == "booked")
    ensures Ended(Apply(db, c).0, b)
  {
  }

  lemma StepEnded(lim: Limits, s: World, a: Action, b: Uuid)
    requires Step(lim, s, a).Some? && Ended(s.db, b) && !Revives(a)
    ensures Ended(Step(lim, s, a).value.db, b)
  {
    if a.Request? {
      EndedStays(s.db, a.call, b);
    }
  }

  /** Worker `w` is not beyond the booking check of a reminder of `b`. */
  predicate NotCleared(s: World, w: nat, b: Uuid) {
    w in s.workers && s.workers[w].id.booking == b ==> !s.workers[w].Cleared()
  }

  lemma StepNotCleared(lim: Limits, s: World, a: Action, w: nat, b: Uuid)
    requires Step(lim, s, a).Some? && Ended(s.db, b) && NotCleared(s, w, b)
    ensures NotCleared(Step(lim, s, a).value, w, b)
  {
  }

  /** No worker without an attempt on `b` beyond its booking check gets one while `b` stays ended. */
  lemma {:induction false} StaysNotCleared(lim: Limits, s: World, actions: seq<Action>, w: nat, b: Uuid)
    requires Run(lim, s, actions).Some? && Ended(s.db, b) && NotCleared(s, w, b)
    requires forall k | 0 <= k < |actions| :: !Revives(actions[k])
    ensures Ended(Run(lim, s, actions).value.db, b) && NotCleared(Run(lim, s, actions).value, w, b)
  {
    if actions != [] {
      var n := |actions| - 1;
      StaysNotCleared(lim, s, actions[..n], w, b);
      StepEnded(lim, Run(lim, s, actions[..n]).value, actions[n], b);
      StepNotCleared(lim, Run(lim, s, actions[..n]).value, actions[n], w, b);
    }
  }

  /** The emails handed on for reminders of booking `b`. */
  function EmailsFor(delivered: seq<Email>, b: Uuid): seq<Email> {
    if delivered == [] then []
    else
      var d := delivered[|delivered| - 1];
      EmailsFor(delivered[..|delivered| - 1], b) + if d.id.booking == b then [d] else []
  }

  /** They are the emails for `b`, each as often as it was handed on, and no others. */
  lemma {:induction false} EmailsForExactly(delivered: seq<Email>, b: Uuid, d: Email)
    ensures multiset(EmailsFor(delivered, b))[d] == if d.id.booking == b then multiset(delivered)[d] else 0
  {
    if delivered != [] {
      var n := |delivered| - 1;
      EmailsForExactly(delivered[..n], b, d);
      assert delivered == delivered[..n] + [delivered[n]];
    }
  }

  lemma StepNoEmail(lim: Limits, s: World, a: Action, b: Uuid)
    requires Step(lim, s, a).Some? && forall w | w in s.workers :: NotCleared(s, w, b)
    ensures EmailsFor(Step(lim, s, a).value.provider.delivered, b) == EmailsFor(s.provider.delivered, b)
  {
    var p, p' := s.provider.delivered, Step(lim, s, a).value.provider.delivered;
    if p' != p {
      assert a.Advance? && s.workers[a.w].Emitting?;
      assert p'[..|p|] == p;
    }
  }

  /** Once a booking is cancelled or moved, no attempt that starts later ever emails it: if no
      attempt stands beyond its booking check at that moment, no email for the booking follows
      in any run without PATCH back to 'booked', however many of its jobs are still queued. */
  lemma {:induction false} EndedBookingGetsNoEmail(lim: Limits, s: World, actions: seq<Action>, b: Uuid)
    requires Run(lim, s, actions).Some? && Ended(s.db, b)
    requires forall w | w in s.workers :: NotCleared(s, w, b)
    requires forall k | 0 <= k < |actions| :: !Revives(actions[k])
    ensures EmailsFor(Run(lim, s, actions).value.provider.delivered, b) == EmailsFor(s.provider.delivered, b)
    ensures forall w | w in Run(lim, s, actions).value.workers :: NotCleared(Run(lim, s, actions).value, w, b)
  {
    if actions != [] {
      var n := |actions| - 1;
      var before := Run(lim, s, actions[..n]).value;
      EndedBookingGetsNoEmail(lim, s, actions[..n], b);
      StepNoEmail(lim, before, actions[n], b);
      forall w | w in Run(lim, s, actions).value.workers ensures NotCleared(Run(lim, s, actions).value, w, b) {
        assert NotCleared(s, w, b);
        StaysNotCleared(lim, s, actions, w, b);
      }
    }
  }

  /** The same for one attempt beside others already under way: begun after the booking ended,
      it never touches the provider. */
  lemma LateAttemptNeverSends(lim: Limits, s: World, w: nat, job: string, actions: seq<Action>, x: Outside)
    requires StepBegin(s, w, job).Some? && Ended(s.db, s.jobs[job].reminder.booking)
    requires forall k | 0 <= k < |actions| :: !Revives(actions[k])
    requires SameAttempt(actions, 0, w)
    requires Run(lim, StepBegin(s, w, job).value, actions).Some?
    requires StepAdvance(lim, Run(lim, StepBegin(s, w, job).value, actions).value, w, x).Some?
    ensures StepAdvance(lim, Run(lim, StepBegin(s, w, job).value, actions).value, w, x).value.provider ==
            Run(lim, StepBegin(s, w, job).value, actions).value.provider
  {
    var s' := StepBegin(s, w, job).value;
    var b := s.jobs[job].reminder.booking;
    StaysNotCleared(lim, s', actions, w, b);
    SameId(lim, s', actions, 0, w);
    assert actions[..0] == [];
  }

  // ---------- the history of a row ----------

  /** What an action does to the row of `id`, if anything. */
  function EventOn(s: World, a: Action, id: ReminderId): Option<Event> {
    match a
    case Request(c) =>
      if c.RescheduleCall? && c.WellFormed() && c.move.bookingId == id.booking && Reschedule(s.db, c).1.Created?
      then Some(CancelAny) else None
    case Enqueue(id', read) =>
      if id' == id && BookedStart(s.db, id.booking).Some? &&
          FireTime(BookedStart(s.db, id.booking).value, id.offset) <= read
      then Some(SkipPast) else None
    case Withdraw(booking, _) => if booking == id.booking then Some(Event.Withdraw) else None
    case Advance(w, _) =>
      if w in s.workers && s.workers[w] == Claiming(id) then Some(Claim(s.now, s.now))
      else if w in s.workers && s.workers[w].Marking? && s.workers[w].id == id then Some(Mark(s.workers[w].status))
      else None
    case _ => None
  }

  function AfterEvent(row: Reminder, e: Option<Event>): Reminder {
    if e.None? then row else Happen(row, e.value)
  }

  lemma RequestEvent(s: World, c: Call, id: ReminderId)
    requires c.WellFormed() && id in s.db.reminders
    ensures id in Apply(s.db, c).0.reminders
    ensures Apply(s.db, c).0.reminders[id] == AfterEvent(s.db.reminders[id], EventOn(s, Request(c), id))
  {
  }

  /** Every action of the system acts on every stored row as one of the row's own events. */
  lemma StepIsEvent(lim: Limits, s: World, a: Action, id: ReminderId)
    requires Step(lim, s, a).Some? && id in s.db.reminders
    ensures id in Step(lim, s, a).value.db.reminders
    ensures Step(lim, s, a).value.db.reminders[id] == AfterEvent(s.db.reminders[id], EventOn(s, a, id))
  {
    if a.Request? {
      RequestEvent(s, a.call, id);
    }
  }

  function EventList(e: Option<Event>): seq<Event> {
    if e.None? then [] else [e.value]
  }

  /** The events of one row over a run. */
  function History(lim: Limits, s: World, actions: seq<Action>, id: ReminderId): seq<Event>
    requires Run(lim, s, actions).Some?
  {
    if actions == [] then []
    else
      var n := |actions| - 1;
      History(lim, s, actions[..n], id) + EventList(EventOn(Run(lim, s, actions[..n]).value, actions[n], id))
  }

  /** So a row after a run is the row after its history: what is true of every history of a row,
      that it never goes back and that its attempts count its claims, is true of every run. */
  lemma {:induction false} RunIsHistory(lim: Limits, s: World, actions: seq<Action>, id: ReminderId)
    requires Run(lim, s, actions).Some? && id in s.db.reminders
    ensures id in Run(lim, s, actions).value.db.reminders
    ensures Run(lim, s, actions).value.db.reminders[id] == HappenAll(s.db.reminders[id], History(lim, s, actions, id))
  {
    if actions != [] {
      var n := |actions| - 1;
      var before := Run(lim, s, actions[..n]).value;
      RunIsHistory(lim, s, actions[..n], id);
      StepIsEvent(lim, before, actions[n], id);
      var past := History(lim, s, actions[..n], id);
      if EventOn(before, actions[n], id).Some? {
        var e := EventOn(before, actions[n], id).value;
        assert (past + [e])[..|past|] == past;
      } else {
        assert past + [] == past;
      }
    }
  }

  /** The processor's own claim needs a scheduled row, so it succeeds once at most. */
  lemma {:induction false} ClaimsAtMostOne(row: Reminder, events: seq<Event>)
    requires forall i | 0 <= i < |events| :: !events[i].ClaimDue?
    ensures ClaimCount(row, events) + (if HappenAll(row, events).status == Scheduled then 1 else 0) <= 1
  {
    if events != [] {
      ClaimsAtMostOne(row, events[..|events| - 1]);
    }
  }

  lemma {:induction false} HistoryHasNoClaimDue(lim: Limits, s: World, actions: seq<Action>, id: ReminderId)
    requires Run(lim, s, actions).Some?
    ensures forall i | 0 <= i < |History(lim, s, actions, id)| :: !History(lim, s, actions, id)[i].ClaimDue?
  {
    if actions != [] {
      HistoryHasNoClaimDue(lim, s, actions[..|actions| - 1], id);
    }
  }

  /** Over every run a row's status never goes back a stage, its attempts grow by exactly the
      claims, and it is claimed at most once, however many workers, retries and crashes. */
  lemma RunRowForward(lim: Limits, s: World, actions: seq<Action>, id: ReminderId)
    requires Run(lim, s, actions).Some? && id in s.db.reminders
    ensures id in Run(lim, s, actions).value.db.reminders
    ensures var row, row' := s.db.reminders[id], Run(lim, s, actions).value.db.reminders[id];
            Stage(row'.status) >= Stage(row.status) && row'.attempts <= row.attempts + 1 &&
            row'.attempts == row.attempts + ClaimCount(row, History(lim, s, actions, id))
  {
    var row, history := s.db.reminders[id], History(lim, s, actions, id);
    RunIsHistory(lim, s, actions, id);
    HappenAllForward(row, history);
    AttemptsCountClaims(row, history);
    HistoryHasNoClaimDue(lim, s, actions, id);
    ClaimsAtMostOne(row, history);
  }
}
