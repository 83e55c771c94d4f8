/** The pure rules of the booking life cycle and the four separately written
    cancellation-window tests. */
module BookingRules {
  import opened Tables

  /** `VALID_TRANSITIONS` of the bookings module: 'no_show' is never a target. */
  function ValidTransitions(from: BookingStatus): set<BookingStatus> {
    match from
    case Booked => {Completed, Cancelled}
    case Completed => {}
    case Cancelled => {}
    case NoShow => {}
  }

  predicate IsValidTransition(from: BookingStatus, to: BookingStatus) {
    to in ValidTransitions(from)
  }

  /** The table inside `LifecycleService.transition`, which also allows 'no_show'. */
  predicate LifecycleAllows(from: BookingStatus, to: BookingStatus) {
    from == Booked && to in {Completed, Cancelled, NoShow}
  }

  datatype Cancellation = Allowed | InvalidTransition | VersionMismatch | WindowExpired

  function EvaluateCancellation(ifMatch: int, now: int, window: int, start: int,
                                status: BookingStatus, version: int): Cancellation
  {
    if !IsValidTransition(status, Cancelled) then InvalidTransition
    else if ifMatch != version then VersionMismatch
    else
      var windowMs := window * 60 * 60 * 1000;
      var deadlineMs := start - windowMs;
      if now > deadlineMs then WindowExpired else Allowed
  }

  /** `isCancellable` of the time package. */
  predicate IsCancellable(now: int, start: int, window: int) {
    var deadline := start + (-(window * 60 * 60 * 1000));
    now <= deadline
  }

  /** The test `rescheduleBooking` makes before it opens its transaction. */
  predicate RescheduleExpired(now: int, start: int, window: int) {
    var windowMs := window * 60 * 60 * 1000;
    now > start - windowMs
  }

  /** The test of `LifecycleService.cancel`, written on the remaining time. */
  predicate LifecycleTooLate(now: int, start: int, window: int) {
    var windowMs := window * 60 * 60 * 1000;
    var remainingMs := start - now;
    remainingMs < windowMs
  }

  /** The four window tests answer alike for every clock, start and window, and
      each admits exactly the clocks up to `window` hours before the start. */
  lemma WindowTestsAgree(now: int, start: int, window: int, version: int)
    ensures IsCancellable(now, start, window) <==> !RescheduleExpired(now, start, window)
    ensures IsCancellable(now, start, window) <==> !LifecycleTooLate(now, start, window)
    ensures IsCancellable(now, start, window) <==>
            EvaluateCancellation(version, now, window, start, Booked, version) == Allowed
    ensures IsCancellable(now, start, window) <==> now + window * MS_PER_HOUR <= start
  {
  }

  /** The two transition tables leave 'booked' only, and differ in 'no_show' alone. */
  lemma TransitionTables(from: BookingStatus, to: BookingStatus)
    ensures IsValidTransition(from, to) <==> from == Booked && (to == Completed || to == Cancelled)
    ensures LifecycleAllows(from, to) <==> IsValidTransition(from, to) || (from == Booked && to == NoShow)
  {
  }

  /** A cancellation passes for a booked booking of the expected version inside the window and for no other. */
  lemma CancellationAllowedExactly(ifMatch: int, now: int, window: int, start: int, status: BookingStatus, version: int)
    ensures EvaluateCancellation(ifMatch, now, window, start, status, version) == Allowed <==>
            status == Booked && ifMatch == version && IsCancellable(now, start, window)
  {
  }
}
