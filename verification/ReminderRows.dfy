/** One reminder row under every statement that touches it. */
module ReminderRows {
  import opened Tables

  const LEASE := 120_000

  /** The statements on a row.  `app` is the worker's clock when it computed the lease,
      `dbNow` the database's clock when the statement ran. */
  datatype Event =
    | Claim(app: int, dbNow: int)
    | ClaimDue(app: int, dbNow: int)
    | Mark(status: ReminderStatus)
    | Withdraw
    | CancelAny
    | SkipPast

  function Lease(row: Reminder, app: int): Reminder {
    row.(status := Sending, attempts := row.attempts + 1, lockedUntil := Some(app + LEASE))
  }

  /** `claimDue` takes scheduled rows and sending rows whose lease has run out; a null lease never has. */
  predicate ClaimableDue(row: Reminder, dbNow: int) {
    row.status == Scheduled ||
    (row.status == Sending && row.lockedUntil.Some? && row.lockedUntil.value < dbNow)
  }

  /** The event is a claim that succeeds on this row. */
  predicate Claims(row: Reminder, e: Event) {
    (e.Claim? && row.status == Scheduled) || (e.ClaimDue? && ClaimableDue(row, e.dbNow))
  }

  /** The marks the table's CHECK lets through.  `markSuppressed` writes a status it does
      not list, so that statement fails and the row keeps the status it had. */
  predicate Marked(s: ReminderStatus) {
    s == Sent || s == Failed || s == ReminderCancelled
  }

  function Happen(row: Reminder, e: Event): Reminder {
    match e
    case Claim(app, _) => if Claims(row, e) then Lease(row, app) else row
    case ClaimDue(app, _) => if Claims(row, e) then Lease(row, app) else row
    case Mark(s) => if Marked(s) then row.(status := s) else row
    case Withdraw => if row.status == Scheduled || row.status == Sending then row.(status := ReminderCancelled) else row
    case CancelAny => row.(status := ReminderCancelled)
    case SkipPast => if row.status == Scheduled then row.(status := Skipped) else row
  }

  function HappenAll(row: Reminder, events: seq<Event>): Reminder {
    if events == [] then row else Happen(HappenAll(row, events[..|events| - 1]), events[|events| - 1])
  }

  function ClaimCount(row: Reminder, events: seq<Event>): nat {
    if events == [] then 0
    else
      var before := events[..|events| - 1];
      ClaimCount(row, before) + if Claims(HappenAll(row, before), events[|events| - 1]) then 1 else 0
  }

  /** Scheduled, then sending, then finished. */
  function Stage(s: ReminderStatus): nat {
    match s
    case Scheduled => 0
    case Sending => 1
    case _ => 2
  }

  /** No event takes a row back a stage, moves its fire time or lowers its attempts. */
  lemma HappenForward(row: Reminder, e: Event)
    ensures Stage(Happen(row, e).status) >= Stage(row.status)
    ensures Happen(row, e).fireAt == row.fireAt
    ensures Happen(row, e).attempts == row.attempts + if Claims(row, e) then 1 else 0
  {
  }

  lemma {:induction false} HappenAllSplit(row: Reminder, events: seq<Event>, i: nat)
    requires i <= |events|
    ensures HappenAll(row, events) == HappenAll(HappenAll(row, events[..i]), events[i..])
  {
    if i == |events| {
      assert events[..i] == events;
    } else {
      var n := |events| - 1;
      HappenAllSplit(row, events[..n], i);
      assert events[..n][..i] == events[..i];
      assert events[..n][i..] == events[i..][..n - i];
    }
  }

  lemma {:induction false} HappenAllForward(row: Reminder, events: seq<Event>)
    ensures Stage(HappenAll(row, events).status) >= Stage(row.status)
  {
    if events != [] {
      HappenAllForward(row, events[..|events| - 1]);
      HappenForward(HappenAll(row, events[..|events| - 1]), events[|events| - 1]);
    }
  }

  /** Over any history a row that has left 'scheduled' never re-enters it, and one that
      has left {scheduled, sending} never returns to either. */
  lemma NeverBack(row: Reminder, events: seq<Event>, i: nat, j: nat)
    requires i <= j <= |events|
    ensures HappenAll(row, events[..i]).status != Scheduled ==> HappenAll(row, events[..j]).status != Scheduled
    ensures HappenAll(row, events[..i]).status !in {Scheduled, Sending} ==>
            HappenAll(row, events[..j]).status !in {Scheduled, Sending}
  {
    HappenAllSplit(row, events[..j], i);
    assert events[..j][..i] == events[..i];
    HappenAllForward(HappenAll(row, events[..i]), events[..j][i..]);
  }

  /** `attempts` counts the claims. */
  lemma {:induction false} AttemptsCountClaims(row: Reminder, events: seq<Event>)
    ensures HappenAll(row, events).attempts == row.attempts + ClaimCount(row, events)
  {
    if events != [] {
      AttemptsCountClaims(row, events[..|events| - 1]);
      HappenForward(HappenAll(row, events[..|events| - 1]), events[|events| - 1]);
    }
  }

  predicate IsClaim(e: Event) {
    e.Claim? || e.ClaimDue?
  }

  /** Lease clocks run forward from claim to claim. */
  ghost predicate ClocksForward(events: seq<Event>) {
    forall i, j | 0 <= i < j < |events| && IsClaim(events[i]) && IsClaim(events[j]) :: events[i].app <= events[j].app
  }

  /** After a claim the row is never scheduled again and its lease never ends earlier. */
  lemma {:induction false} LeaseHolds(row: Reminder, events: seq<Event>, i: nat)
    requires ClocksForward(events) && i < |events| && Claims(HappenAll(row, events[..i]), events[i])
    ensures HappenAll(row, events).status != Scheduled
    ensures HappenAll(row, events).lockedUntil.Some? &&
            HappenAll(row, events).lockedUntil.value >= events[i].app + LEASE
  {
    var n := |events| - 1;
    if i < n {
      assert events[..n][..i] == events[..i];
      LeaseHolds(row, events[..n], i);
    }
  }

  /** Two claims of one row are more than the two-minute lease apart: the later one runs
      later than the earlier one's clock plus the lease. */
  lemma ClaimsApart(row: Reminder, events: seq<Event>, i: nat, j: nat)
    requires ClocksForward(events) && i < j < |events|
    requires Claims(HappenAll(row, events[..i]), events[i]) && Claims(HappenAll(row, events[..j]), events[j])
    ensures events[j].dbNow > events[i].app + 2 * 60 * 1000
  {
    assert events[..j][..i] == events[..i];
    LeaseHolds(row, events[..j], i);
  }

  /** Without `claimDue` a row is claimed at most once. */
  lemma ClaimedOnce(row: Reminder, events: seq<Event>, i: nat, j: nat)
    requires i < j < |events| && Claims(HappenAll(row, events[..i]), events[i]) && events[j].Claim?
    ensures !Claims(HappenAll(row, events[..j]), events[j])
  {
    assert events[..i + 1][..i] == events[..i];
    NeverBack(row, events, i + 1, j);
  }
}
