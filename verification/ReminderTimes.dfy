/** `reminderFireTimes` and `subtractElapsed` of the time package, and their agreement with the
    fire times the booking transactions write themselves. */
module ReminderTimes {
  import opened Tables
  import opened Requests
  import opened TimeBounds

  /** The minutes are subtracted whatever their sign. */
  function SubtractElapsed(instant: int, minutes: int): int {
    instant - (if minutes < 0 then -minutes else minutes) * MS_PER_MINUTE
  }

  /** The two ways of computing a fire time agree exactly for offsets that are not negative. */
  lemma SubtractElapsedAgrees(start: int, offset: int)
    ensures SubtractElapsed(start, offset) == FireTime(start, offset) <==> offset >= 0
  {
  }

  function Upcoming(start: int, offsets: seq<int>, now: int): seq<int> {
    if offsets == [] then []
    else
      var n := |offsets| - 1;
      Upcoming(start, offsets[..n], now) +
      if FireTime(start, offsets[n]) > now then [FireTime(start, offsets[n])] else []
  }

  predicate Ascending(s: seq<int>) {
    forall i, j | 0 <= i < j < |s| :: s[i] <= s[j]
  }

  function Insert(s: seq<int>, x: int): seq<int> {
    if s == [] || s[|s| - 1] <= x then s + [x] else Insert(s[..|s| - 1], x) + [s[|s| - 1]]
  }

  function Sort(s: seq<int>): seq<int> {
    if s == [] then [] else Insert(Sort(s[..|s| - 1]), s[|s| - 1])
  }

  lemma {:induction false} InsertMembers(s: seq<int>, x: int)
    ensures multiset(Insert(s, x)) == multiset(s) + multiset{x}
  {
    if s != [] && s[|s| - 1] > x {
      InsertMembers(s[..|s| - 1], x);
      assert s == s[..|s| - 1] + [s[|s| - 1]];
    }
  }

  /** Insertion keeps the order and any upper bound of both. */
  lemma {:induction false} InsertAscending(s: seq<int>, x: int, bound: int)
    requires Ascending(s) && x <= bound && forall i | 0 <= i < |s| :: s[i] <= bound
    ensures Ascending(Insert(s, x)) && forall i | 0 <= i < |Insert(s, x)| :: Insert(s, x)[i] <= bound
  {
    if s != [] && s[|s| - 1] > x {
      InsertAscending(s[..|s| - 1], x, s[|s| - 1]);
    }
  }

  lemma {:induction false} SortAscending(s: seq<int>)
    ensures Ascending(Sort(s)) && multiset(Sort(s)) == multiset(s)
  {
    if s != [] {
      SortAscending(s[..|s| - 1]);
      var front, x := Sort(s[..|s| - 1]), s[|s| - 1];
      InsertMembers(front, x);
      InsertAscending(front, x, if front == [] || front[|front| - 1] <= x then x else front[|front| - 1]);
      assert s == s[..|s| - 1] + [s[|s| - 1]];
    }
  }

  lemma {:induction false} UpcomingExactly(start: int, offsets: seq<int>, now: int, t: int)
    ensures t in Upcoming(start, offsets, now) <==>
            t > now && exists i | 0 <= i < |offsets| :: t == FireTime(start, offsets[i])
  {
    if offsets != [] {
      var n := |offsets| - 1;
      UpcomingExactly(start, offsets[..n], now, t);
      if i :| 0 <= i < |offsets| && t == FireTime(start, offsets[i]) && i < n {
        assert t == FireTime(start, offsets[..n][i]);
      }
      if i :| 0 <= i < n && t == FireTime(start, offsets[..n][i]) {
        assert t == FireTime(start, offsets[i]);
      }
    }
  }

  /** `reminderFireTimes`: the fire times still to come, in ascending order. */
  method ReminderFireTimes(start: int, offsets: seq<int>, now: int) returns (times: seq<int>)
    ensures Ascending(times) && multiset(times) == multiset(Upcoming(start, offsets, now))
    ensures forall t :: t in times <==> t > now && exists i | 0 <= i < |offsets| :: t == FireTime(start, offsets[i])
  {
    var results: seq<int> := [];
    for i := 0 to |offsets|
      invariant results == Upcoming(start, offsets[..i], now)
    {
      assert offsets[..i + 1][..i] == offsets[..i];
      var fire := start - offsets[i] * 60 * 1000;
      if fire > now {
        results := results + [fire];
      }
    }
    assert offsets[..|offsets|] == offsets;
    SortAscending(results);
    times := Sort(results);
    forall t ensures t in times <==> t > now && exists i | 0 <= i < |offsets| :: t == FireTime(start, offsets[i]) {
      UpcomingExactly(start, offsets, now, t);
      assert t in times <==> t in multiset(times);
      assert t in results <==> t in multiset(results);
    }
  }

  /** The rows a create inserts at one clock fire at exactly the times `reminderFireTimes` lists for it. */
  lemma CreateUsesFireTimes(db: Db, c: Call, t: int)
    requires c.CreateCall? && c.WellFormed() && Create(db, c).1.Created? && c.clock60 == c.clock1440
    requires forall r | r in db.reminders :: r.booking in db.bookings
    ensures (exists r | r in Create(db, c).0.reminders ::
              r.booking == c.newId && Create(db, c).0.reminders[r].fireAt == t) <==>
            t in Upcoming(db.slots[c.create.slotId].start, [1440, 60], c.clock60)
  {
    var start, rows := db.slots[c.create.slotId].start, Create(db, c).0.reminders;
    CreateReminderRows(db, c);
    UpcomingExactly(start, [1440, 60], c.clock60, t);
    assert [1440, 60][0] == 1440 && [1440, 60][1] == 60;
    if t in Upcoming(start, [1440, 60], c.clock60) {
      var r := ReminderId(c.newId, if t == FireTime(start, 1440) then 1440 else 60);
      assert r in rows && rows[r].fireAt == t;
    }
  }

  /** The rows a reschedule inserts fire at the new slot's start less their offset, computed with `subtractElapsed`. */
  lemma MoveUsesSubtractElapsed(db: Db, c: Call, r: ReminderId)
    requires c.RescheduleCall? && c.WellFormed() && Reschedule(db, c).1.Created?
    requires r in Reschedule(db, c).0.reminders && r !in db.reminders
    ensures c.move.newSlotId in db.slots && r.booking == c.newId && r.offset in {1440, 60}
    ensures Reschedule(db, c).0.reminders[r].fireAt == SubtractElapsed(db.slots[c.move.newSlotId].start, r.offset)
    ensures Reschedule(db, c).0.reminders[r].fireAt > c.now
  {
    SubtractElapsedAgrees(db.slots[c.move.newSlotId].start, r.offset);
  }
}
