/** The rolling materializer of weekly rules: one window a weekday, each weekday
    expanded on its own, all stored in one batch. */
module WeeklyMaterializer {
  import opened Tables
  import opened Zone
  import opened SlotGeneration
  import opened Materialize

  datatype Rule = Rule(weekday: int, start: int, end: int)

  datatype Window = Window(start: int, end: int)

  type Week = map<int, Window>

  // ---------- grouping the rules by weekday ----------

  /** The map the grouping loop builds from the first `n` rules. */
  function Grouped(rules: seq<Rule>): Week {
    if rules == [] then map[]
    else
      var week, r := Grouped(rules[..|rules| - 1]), rules[|rules| - 1];
      if r.weekday !in week || week[r.weekday].start > r.start then week[r.weekday := Window(r.start, r.end)] else week
  }

  /** Each weekday keeps the window of its earliest-starting rule, the first of them when several tie. */
  lemma {:induction false} GroupedEarliest(rules: seq<Rule>, i: nat)
    requires i < |rules|
    ensures rules[i].weekday in Grouped(rules) && Grouped(rules)[rules[i].weekday].start <= rules[i].start
  {
    var n := |rules| - 1;
    if i < n {
      GroupedEarliest(rules[..n], i);
    }
  }

  lemma {:induction false} GroupedFromRule(rules: seq<Rule>, day: int) returns (i: nat)
    requires day in Grouped(rules)
    ensures i < |rules| && rules[i].weekday == day && Grouped(rules)[day] == Window(rules[i].start, rules[i].end)
    ensures forall k | 0 <= k < i && rules[k].weekday == day :: rules[k].start > rules[i].start
  {
    var n := |rules| - 1;
    var week, r := Grouped(rules[..n]), rules[n];
    if r.weekday == day && (day !in week || week[day].start > r.start) {
      i := n;
      forall k | 0 <= k < n && rules[k].weekday == day ensures rules[k].start > r.start {
        GroupedEarliest(rules[..n], k);
      }
    } else {
      i := GroupedFromRule(rules[..n], day);
    }
  }

  /** The weekdays in the order in which their first rule came: the order of the map's keys. */
  function KeysInOrder(rules: seq<Rule>): seq<int> {
    if rules == [] then []
    else
      var before, day := KeysInOrder(rules[..|rules| - 1]), rules[|rules| - 1].weekday;
      if day in Grouped(rules[..|rules| - 1]) then before else before + [day]
  }

  /** `days` names each weekday of the week once. */
  predicate Lists(days: seq<int>, week: Week) {
    Distinct(days) && (forall i | 0 <= i < |days| :: days[i] in week) && (forall d | d in week :: d in days)
  }

  lemma {:induction false} KeysListed(rules: seq<Rule>)
    ensures Lists(KeysInOrder(rules), Grouped(rules))
  {
    if rules != [] {
      var before := rules[..|rules| - 1];
      KeysListed(before);
      var day := rules[|rules| - 1].weekday;
      assert day in KeysInOrder(before) <==> day in Grouped(before);
    }
  }

  // ---------- expanding weekday by weekday ----------

  function DayRules(day: int, w: Window): Rules {
    Rules(Some([day]), Some(w.start), Some(w.end))
  }

  /** The generated slots of the weekdays of `days`, one weekday after another. */
  function Expand(z: TimeZone, week: Week, m: nat, days: seq<int>, fromDay: int, toDay: int): seq<Interval>
    requires m > 0 && forall i | 0 <= i < |days| :: days[i] in week
  {
    if days == [] then []
    else
      var n := |days| - 1;
      Expand(z, week, m, days[..n], fromDay, toDay) + Generate(z, DayRules(days[n], week[days[n]]), m, fromDay, toDay)
  }

  /** One date of a sweep that uses each date's own weekday window. */
  function SweepDate(z: TimeZone, week: Week, m: nat, day: int): seq<Interval>
    requires m > 0
  {
    if Weekday(day) in week then DaySlots(z, day, week[Weekday(day)].start, week[Weekday(day)].end, m) else []
  }

  function Sweep(z: TimeZone, week: Week, m: nat, fromDay: int, toDay: int): seq<Interval>
    requires m > 0
    decreases toDay - fromDay
  {
    if toDay < fromDay then [] else Sweep(z, week, m, fromDay, toDay - 1) + SweepDate(z, week, m, toDay)
  }

  /** The sweep restricted to some weekdays. */
  function Only(week: Week, days: seq<int>): Week {
    map d | d in week && d in days :: week[d]
  }

  lemma DateAddsDay(z: TimeZone, week: Week, m: nat, days: seq<int>, date: int)
    requires m > 0 && days != [] && Distinct(days) && forall i | 0 <= i < |days| :: days[i] in week
    ensures var n := |days| - 1;
            SweepDate(z, Only(week, days), m, date) ==
            SweepDate(z, Only(week, days[..n]), m, date) + DatePart(z, DayRules(days[n], week[days[n]]), m, date)
  {
    var n, dow := |days| - 1, Weekday(date);
    assert dow in days <==> dow in days[..n] || dow == days[n];
    assert days[n] !in days[..n];
  }

  /** Adding one more weekday to a sweep adds that weekday's own slots. */
  lemma {:induction false} SweepAddsDay(z: TimeZone, week: Week, m: nat, days: seq<int>, fromDay: int, toDay: int)
    requires m > 0 && days != [] && Distinct(days) && forall i | 0 <= i < |days| :: days[i] in week
    ensures var n := |days| - 1;
            multiset(Sweep(z, Only(week, days), m, fromDay, toDay)) ==
            multiset(Sweep(z, Only(week, days[..n]), m, fromDay, toDay)) +
            multiset(RangeSlots(z, DayRules(days[n], week[days[n]]), m, fromDay, toDay))
    decreases toDay - fromDay
  {
    if fromDay <= toDay {
      SweepAddsDay(z, week, m, days, fromDay, toDay - 1);
      DateAddsDay(z, week, m, days, toDay);
    }
  }

  /** Expanding each weekday separately and merging yields the slots of one sweep of the
      dates with that weekday's window. */
  lemma {:induction false} ExpandIsSweep(z: TimeZone, week: Week, m: nat, days: seq<int>, fromDay: int, toDay: int)
    requires m > 0 && Distinct(days) && forall i | 0 <= i < |days| :: days[i] in week
    ensures multiset(Expand(z, week, m, days, fromDay, toDay)) ==
            multiset(Sweep(z, Only(week, days), m, fromDay, toDay))
  {
    if days == [] {
      SweepNothing(z, m, fromDay, toDay);
      assert Only(week, days) == map[];
    } else {
      var n := |days| - 1;
      ExpandIsSweep(z, week, m, days[..n], fromDay, toDay);
      SweepAddsDay(z, week, m, days, fromDay, toDay);
      GenerateSorted(z, DayRules(days[n], week[days[n]]), m, fromDay, toDay);
    }
  }

  /** On one of the dates, of weekday `d`, the slot is one of the grid's from that weekday's window. */
  ghost predicate WeekSlot(z: TimeZone, week: Week, m: nat, d: int, day: int, x: Interval) {
    d in week && WeeksApart(day, d) && OnGridOf(z, day, week[d].start, week[d].end, m, x)
  }

  /** The slot is one of weekday `d`'s on some date of the range. */
  ghost predicate InRange(z: TimeZone, week: Week, m: nat, d: int, fromDay: int, toDay: int, x: Interval) {
    exists day | fromDay <= day <= toDay :: WeekSlot(z, week, m, d, day, x)
  }

  ghost predicate OfSomeDay(z: TimeZone, week: Week, m: nat, days: seq<int>, fromDay: int, toDay: int, x: Interval) {
    exists i | 0 <= i < |days| :: InRange(z, week, m, days[i], fromDay, toDay, x)
  }

  lemma OfSomeDayLast(z: TimeZone, week: Week, m: nat, rest: seq<int>, d: int, fromDay: int, toDay: int, x: Interval)
    ensures OfSomeDay(z, week, m, rest + [d], fromDay, toDay, x) <==>
            OfSomeDay(z, week, m, rest, fromDay, toDay, x) || InRange(z, week, m, d, fromDay, toDay, x)
  {
    var days := rest + [d];
    if i :| 0 <= i < |rest| && InRange(z, week, m, rest[i], fromDay, toDay, x) {
      assert InRange(z, week, m, days[i], fromDay, toDay, x);
    }
    if InRange(z, week, m, d, fromDay, toDay, x) {
      assert InRange(z, week, m, days[|rest|], fromDay, toDay, x);
    }
    if i :| 0 <= i < |days| && InRange(z, week, m, days[i], fromDay, toDay, x) {
      assert i < |rest| ==> InRange(z, week, m, rest[i], fromDay, toDay, x);
    }
  }

  lemma ExpandLast(z: TimeZone, week: Week, m: nat, rest: seq<int>, d: int, fromDay: int, toDay: int)
    requires m > 0 && d in week && forall i | 0 <= i < |rest| :: rest[i] in week
    ensures Expand(z, week, m, rest + [d], fromDay, toDay) ==
            Expand(z, week, m, rest, fromDay, toDay) + Generate(z, DayRules(d, week[d]), m, fromDay, toDay)
  {
    assert (rest + [d])[..|rest|] == rest;
  }

  /** The expansion holds exactly the slots of the weekdays' grids on their dates. */
  lemma {:induction false} ExpandExactly(z: TimeZone, week: Week, m: nat, days: seq<int>, fromDay: int, toDay: int,
                                         x: Interval)
    requires m > 0 && forall i | 0 <= i < |days| :: days[i] in week && 1 <= days[i] <= 7
    ensures x in Expand(z, week, m, days, fromDay, toDay) <==> OfSomeDay(z, week, m, days, fromDay, toDay, x)
  {
    if days != [] {
      var rest, d := days[..|days| - 1], days[|days| - 1];
      assert days == rest + [d];
      ExpandExactly(z, week, m, rest, fromDay, toDay, x);
      OneWeekdayExactly(z, week, m, d, fromDay, toDay, x);
      OfSomeDayLast(z, week, m, rest, d, fromDay, toDay, x);
      ExpandLast(z, week, m, rest, d, fromDay, toDay);
    }
  }

  lemma OneWeekdayExactly(z: TimeZone, week: Week, m: nat, d: int, fromDay: int, toDay: int, x: Interval)
    requires m > 0 && d in week && 1 <= d <= 7
    ensures x in Generate(z, DayRules(d, week[d]), m, fromDay, toDay) <==> InRange(z, week, m, d, fromDay, toDay, x)
  {
    var r := DayRules(d, week[d]);
    GeneratedExactly(z, r, m, fromDay, toDay, x);
    forall day ensures SlotOfDate(z, r, m, day, x) <==> WeekSlot(z, week, m, d, day, x) {
      assert WeeksApart(day, r.days.value[0]) <==> WeeksApart(day, d);
    }
  }

  lemma {:induction false} SweepNothing(z: TimeZone, m: nat, fromDay: int, toDay: int)
    requires m > 0
    ensures Sweep(z, map[], m, fromDay, toDay) == []
    decreases toDay - fromDay
  {
    if fromDay <= toDay {
      SweepNothing(z, m, fromDay, toDay - 1);
    }
  }

  // ---------- the sweep is disjoint ----------

  /** The weekday's window holds a slot. */
  predicate HasSlots(week: Week, m: nat, d: int) {
    d in week && week[d].start + m <= week[d].end
  }

  /** The last slot of any weekday ends at least `j` before the first slot of any other on the next date. */
  ghost predicate WeekApart(week: Week, m: nat, j: nat)
    requires m > 0
  {
    forall d, d' | HasSlots(week, m, d) && HasSlots(week, m, d') ::
      (LastPoint(week[d].start, week[d].end, m) - week[d'].start) * MS_PER_MINUTE + j <= DAY
  }

  ghost predicate WeekFits(z: TimeZone, week: Week, m: nat, j: nat) {
    m > 0 && Valid(z) && JumpsAtMost(z, j) && j <= m * MS_PER_MINUTE && WeekApart(week, m, j) &&
    forall d | HasSlots(week, m, d) :: 0 <= week[d].start && week[d].end <= 1440
  }

  /** In a zone with jumps of an hour or less, hourly slots fit whenever the rules' windows start at the same
      minute, however long they are, or end at least an hour before the earliest starts the next day. */
  lemma HourlyWeekFits(z: TimeZone, week: Week)
    requires Valid(z) && JumpsAtMost(z, 60 * MS_PER_MINUTE)
    requires forall d | d in week :: 0 <= week[d].start < 1440 && week[d].end <= 1440
    requires forall d, d' | d in week && d' in week ::
               week[d].start == week[d'].start || week[d].end - week[d'].start <= 1380
    ensures WeekFits(z, week, 60, 60 * MS_PER_MINUTE)
  {
    forall d, d' | HasSlots(week, 60, d) && HasSlots(week, 60, d')
      ensures (LastPoint(week[d].start, week[d].end, 60) - week[d'].start) * MS_PER_MINUTE + 60 * MS_PER_MINUTE <= DAY
    {
      HourGrid(week[d].start, week[d].end);
    }
  }

  /** Every slot ends by `limit`. */
  predicate EndsBy(s: seq<Interval>, limit: int) {
    forall i | 0 <= i < |s| :: s[i].start < s[i].end <= limit
  }

  /** The end of the last slot so far is followed by `j` of wall-clock time before `bound`. */
  ghost predicate LeavesRoom(week: Week, m: nat, j: nat, toDay: int, bound: int)
    requires m > 0
  {
    forall d | HasSlots(week, m, d) :: Local(toDay, LastPoint(week[d].start, week[d].end, m)) + j <= bound
  }

  lemma SweepDateOrdered(z: TimeZone, week: Week, m: nat, j: nat, day: int, bound: int)
    requires WeekFits(z, week, m, j) && LeavesRoom(week, m, j, day, bound) && HasSlots(week, m, Weekday(day))
    ensures var w := week[Weekday(day)];
            Ordered(SweepDate(z, week, m, day)) &&
            Within(SweepDate(z, week, m, day), At(z, day, w.start), Resolve(z, bound)) &&
            Resolve(z, Local(day, w.start)) == At(z, day, w.start) <= Resolve(z, bound)
  {
    var w := week[Weekday(day)];
    DayOrdered(z, day, w.start, w.end, m, j, bound);
    ResolveMonotone(z, Local(day, w.start), bound, j);
  }

  lemma AppendOrdered(a: seq<Interval>, b: seq<Interval>, mid: int, hi: int)
    requires Ordered(a) && EndsBy(a, mid) && Ordered(b) && Within(b, mid, hi) && mid <= hi
    ensures Ordered(a + b) && EndsBy(a + b, hi)
  {
  }

  lemma {:induction false} SweepOrdered(z: TimeZone, week: Week, m: nat, j: nat, fromDay: int, toDay: int, bound: int)
    requires WeekFits(z, week, m, j) && LeavesRoom(week, m, j, toDay, bound)
    ensures Ordered(Sweep(z, week, m, fromDay, toDay)) && EndsBy(Sweep(z, week, m, fromDay, toDay), Resolve(z, bound))
    decreases toDay - fromDay
  {
    if fromDay <= toDay {
      if HasSlots(week, m, Weekday(toDay)) {
        var mid := Local(toDay, week[Weekday(toDay)].start);
        SweepOrdered(z, week, m, j, fromDay, toDay - 1, mid);
        SweepDateOrdered(z, week, m, j, toDay, bound);
        AppendOrdered(Sweep(z, week, m, fromDay, toDay - 1), SweepDate(z, week, m, toDay),
                      Resolve(z, mid), Resolve(z, bound));
      } else {
        SweepOrdered(z, week, m, j, fromDay, toDay - 1, bound);
        assert SweepDate(z, week, m, toDay) == [];
      }
    }
  }

  // ---------- the batch insert ----------

  /** `INSERT ... ON CONFLICT (provider_id, slot_start_utc) DO NOTHING` of a whole batch:
      rows whose start is stored are skipped, and any other overlap fails the statement. */
  function Batch(t: SlotRows, provider: Uuid, xs: seq<Interval>): Option<SlotRows> {
    if xs == [] then Some(t)
    else
      var before, row := Batch(t, provider, xs[..|xs| - 1]), Row(provider, xs[|xs| - 1]);
      if before.None? then None
      else if exists r | r in before.value :: SameStart(r, row) then before
      else if exists r | r in before.value :: Overlaps(r, row) then None
      else Some(before.value + {row})
  }

  /** Whatever the batch, stored slots stay non-overlapping and existing rows untouched. */
  lemma {:induction false} BatchSafe(t: SlotRows, provider: Uuid, xs: seq<Interval>)
    requires NonOverlapping(t) && Batch(t, provider, xs).Some?
    ensures NonOverlapping(Batch(t, provider, xs).value) && t <= Batch(t, provider, xs).value
  {
    if xs != [] {
      BatchSafe(t, provider, xs[..|xs| - 1]);
    }
  }

  /** A stored row has the start of the slot. */
  predicate StartTaken(t: SlotRows, provider: Uuid, x: Interval) {
    exists r | r in t :: SameStart(r, Row(provider, x))
  }

  predicate Blocked(t: SlotRows, provider: Uuid, x: Interval) {
    exists r | r in t :: Overlaps(r, Row(provider, x))
  }

  /** Every slot is skipped for its start or clear of everything stored. */
  ghost predicate Fits(t: SlotRows, provider: Uuid, xs: set<Interval>) {
    forall x | x in xs :: StartTaken(t, provider, x) || !Blocked(t, provider, x)
  }

  /** The rows a batch adds: those whose start is not stored yet. */
  function NewRows(t: SlotRows, provider: Uuid, xs: set<Interval>): SlotRows {
    set x | x in xs && !StartTaken(t, provider, x) :: Row(provider, x)
  }

  /** They start and end as slots of the batch do, and no stored row of the provider starts with them. */
  lemma NewRowsExactly(t: SlotRows, provider: Uuid, xs: set<Interval>, row: Slot)
    ensures row in NewRows(t, provider, xs) <==>
            StoresSlot(row, provider, xs) && forall r | r in t && r.provider == provider :: r.start != row.start
  {
    var x := Interval(row.start, row.end);
    if StoresSlot(row, provider, xs) && forall r | r in t && r.provider == provider :: r.start != row.start {
      assert Row(provider, x) == row && !StartTaken(t, provider, x);
    }
  }

  /** A slot fits when a stored row of the provider starts with it, or none shares an instant with it. */
  lemma FitsExactly(t: SlotRows, provider: Uuid, xs: set<Interval>)
    ensures Fits(t, provider, xs) <==>
            forall x | x in xs ::
              (exists r | r in t :: r.provider == provider && r.start == x.start) ||
              (forall r | r in t && r.provider == provider :: r.end <= x.start || x.end <= r.start)
  {
    forall x | x in xs
      ensures StartTaken(t, provider, x) <==> exists r | r in t :: r.provider == provider && r.start == x.start
      ensures Blocked(t, provider, x) <==>
              !forall r | r in t && r.provider == provider :: r.end <= x.start || x.end <= r.start
    {
    }
  }

  function Elements(xs: seq<Interval>): set<Interval> {
    set x | x in xs
  }

  ghost predicate Clear(xs: set<Interval>) {
    forall x, y | x in xs && y in xs && x != y :: x.end <= y.start || y.end <= x.start
  }

  ghost predicate ProperSet(xs: set<Interval>) {
    forall x | x in xs :: x.start < x.end
  }

  /** A row of the batch that conflicts with a slot of it is that slot's own. */
  lemma NewRowsClear(t: SlotRows, provider: Uuid, xs: set<Interval>, x: Interval, r: Slot)
    requires Clear(xs + {x}) && ProperSet(xs + {x})
    requires r in NewRows(t, provider, xs) && Conflicts(r, Row(provider, x))
    ensures r == Row(provider, x) && x in xs && !StartTaken(t, provider, x)
  {
    var y :| y in xs && !StartTaken(t, provider, y) && r == Row(provider, y);
    assert x == y;
  }

  /** What the statement does with one more slot once the others have gone in. */
  lemma AddOne(t: SlotRows, provider: Uuid, xs: set<Interval>, x: Interval)
    requires Clear(xs + {x}) && ProperSet(xs + {x})
    ensures var t1 := t + NewRows(t, provider, xs);
            if StartTaken(t, provider, x) || x in xs
            then StartTaken(t1, provider, x) && NewRows(t, provider, xs + {x}) == NewRows(t, provider, xs)
            else !StartTaken(t1, provider, x) && (Blocked(t1, provider, x) <==> Blocked(t, provider, x)) &&
                 NewRows(t, provider, xs + {x}) == NewRows(t, provider, xs) + {Row(provider, x)}
  {
    var t1, row := t + NewRows(t, provider, xs), Row(provider, x);
    if StartTaken(t, provider, x) {
      var r :| r in t && SameStart(r, row);
      assert r in t1;
    } else if x in xs {
      assert row in t1 && SameStart(row, row);
      assert xs + {x} == xs;
    } else {
      forall r | r in t1 && Conflicts(r, row) ensures r in t {
        if r !in t {
          NewRowsClear(t, provider, xs, x, r);
        }
      }
    }
  }

  /** Of slots clear of each other, a batch goes through exactly when all of them fit, and then
      adds exactly the new rows, whatever order the weekdays put it in. */
  lemma {:induction false} BatchExactly(t: SlotRows, provider: Uuid, xs: seq<Interval>)
    requires Clear(Elements(xs)) && ProperSet(Elements(xs))
    ensures Batch(t, provider, xs).Some? <==> Fits(t, provider, Elements(xs))
    ensures Batch(t, provider, xs).Some? ==> Batch(t, provider, xs).value == t + NewRows(t, provider, Elements(xs))
  {
    if xs == [] {
      assert t + NewRows(t, provider, Elements(xs)) == t;
    } else {
      var rest, x := xs[..|xs| - 1], xs[|xs| - 1];
      assert Elements(xs) == Elements(rest) + {x};
      BatchExactly(t, provider, rest);
      AddOne(t, provider, Elements(rest), x);
      BatchStep(t, provider, xs);
      var t1 := t + NewRows(t, provider, Elements(rest));
      assert t1 + {Row(provider, x)} == t + (NewRows(t, provider, Elements(rest)) + {Row(provider, x)});
    }
  }

  lemma BatchStep(t: SlotRows, provider: Uuid, xs: seq<Interval>)
    requires xs != []
    ensures var before, x := Batch(t, provider, xs[..|xs| - 1]), xs[|xs| - 1];
            Batch(t, provider, xs) ==
            if before.None? then None
            else if StartTaken(before.value, provider, x) then before
            else if Blocked(before.value, provider, x) then None
            else Some(before.value + {Row(provider, x)})
  {
  }

  // ---------- one run for one provider ----------

  /** What a run leaves in the table: the batch, or nothing when the statement fails. */
  function RunWeek(t: SlotRows, provider: Uuid, z: TimeZone, week: Week, m: nat, days: seq<int>, fromDay: int,
                   toDay: int): SlotRows
    requires m > 0 && forall i | 0 <= i < |days| :: days[i] in week
  {
    var batch := Batch(t, provider, Expand(z, week, m, days, fromDay, toDay));
    if batch.Some? then batch.value else t
  }

  lemma SweepElements(z: TimeZone, week: Week, m: nat, days: seq<int>, fromDay: int, toDay: int)
    requires m > 0 && Lists(days, week)
    ensures Elements(Expand(z, week, m, days, fromDay, toDay)) == Elements(Sweep(z, week, m, fromDay, toDay))
  {
    ExpandIsSweep(z, week, m, days, fromDay, toDay);
    forall d | d in week ensures d in Only(week, days) {
      assert d in days;
    }
    assert Only(week, days) == week;
    var e, s := Expand(z, week, m, days, fromDay, toDay), Sweep(z, week, m, fromDay, toDay);
    forall x ensures x in e <==> x in s {
      assert x in e <==> x in multiset(e);
      assert x in s <==> x in multiset(s);
    }
  }

  lemma SweepClear(z: TimeZone, week: Week, m: nat, j: nat, fromDay: int, toDay: int)
    requires WeekFits(z, week, m, j)
    ensures Clear(Elements(Sweep(z, week, m, fromDay, toDay))) && ProperSet(Elements(Sweep(z, week, m, fromDay, toDay)))
  {
    SweepOrdered(z, week, m, j, fromDay, toDay, Local(toDay, 1440) + j);
    var s := Sweep(z, week, m, fromDay, toDay);
    forall x, y | x in Elements(s) && y in Elements(s) && x != y ensures x.end <= y.start || y.end <= x.start {
      var i :| 0 <= i < |s| && s[i] == x;
      var k :| 0 <= k < |s| && s[k] == y;
    }
  }

  /** The table after a statement with these slots: their new rows when all of them fit, nothing otherwise. */
  ghost function Stored(t: SlotRows, provider: Uuid, xs: set<Interval>): SlotRows {
    if Fits(t, provider, xs) then t + NewRows(t, provider, xs) else t
  }

  /** A run stores every slot of the sweep whose start was not stored when all of them fit, and
      nothing at all when one does not; the order of the weekdays is immaterial. */
  lemma RunWeekAdds(t: SlotRows, provider: Uuid, z: TimeZone, week: Week, m: nat, j: nat, days: seq<int>,
                    fromDay: int, toDay: int)
    requires WeekFits(z, week, m, j) && Lists(days, week)
    ensures var sweep := Elements(Sweep(z, week, m, fromDay, toDay));
            RunWeek(t, provider, z, week, m, days, fromDay, toDay) == Stored(t, provider, sweep)
  {
    SweepElements(z, week, m, days, fromDay, toDay);
    SweepClear(z, week, m, j, fromDay, toDay);
    BatchExactly(t, provider, Expand(z, week, m, days, fromDay, toDay));
  }

  /** Storing `xs` leaves a slot clear of them fitting, or not, as before. */
  lemma StillFits(t: SlotRows, provider: Uuid, xs: set<Interval>, y: Interval)
    requires Clear(xs + {y}) && ProperSet(xs + {y})
    requires StartTaken(t, provider, y) || !Blocked(t, provider, y)
    ensures var t1 := t + NewRows(t, provider, xs);
            (StartTaken(t1, provider, y) || !Blocked(t1, provider, y)) &&
            (StartTaken(t1, provider, y) <==> StartTaken(t, provider, y) || y in xs)
  {
    AddOne(t, provider, xs, y);
  }

  /** Storing `xs` and then `ys` is storing both at once, when all of them are clear of each other. */
  lemma AddTwice(t: SlotRows, provider: Uuid, xs: set<Interval>, ys: set<Interval>)
    requires Fits(t, provider, xs + ys) && Clear(xs + ys) && ProperSet(xs + ys)
    ensures var t1 := t + NewRows(t, provider, xs);
            Fits(t1, provider, ys) && t1 + NewRows(t1, provider, ys) == t + NewRows(t, provider, xs + ys)
  {
    var t1 := t + NewRows(t, provider, xs);
    forall y | y in ys
      ensures StartTaken(t1, provider, y) || !Blocked(t1, provider, y)
      ensures StartTaken(t1, provider, y) <==> StartTaken(t, provider, y) || y in xs
    {
      assert y in xs + ys;
      StillFits(t, provider, xs, y);
    }
    assert NewRows(t, provider, xs) + NewRows(t1, provider, ys) == NewRows(t, provider, xs + ys);
  }

  // ---------- the rolling window, for any sweep of the dates ----------

  /** The slots of a range of dates. */
  type DateSlots = (int, int) -> set<Interval>

  /** The slots of overlapping ranges make up those of the whole, and are clear of each other. */
  ghost predicate Additive(sweep: DateSlots) {
    (forall a, b, d, c | a <= b <= d + 1 && d <= c :: sweep(a, c) == sweep(a, d) + sweep(b, c)) &&
    forall a, b :: Clear(sweep(a, b)) && ProperSet(sweep(a, b))
  }

  ghost predicate Stores(run: Materializer, provider: Uuid, sweep: DateSlots) {
    forall t, a, b :: run(t, a, b) == Stored(t, provider, sweep(a, b))
  }

  /** A run over these slots leaves the table as it is. */
  ghost predicate Idle(t: SlotRows, provider: Uuid, xs: set<Interval>) {
    !Fits(t, provider, xs) || NewRows(t, provider, xs) == {}
  }

  lemma StoredIsIdle(t: SlotRows, provider: Uuid, xs: set<Interval>)
    ensures t <= Stored(t, provider, xs)
    ensures Stored(t, provider, xs) == t <==> Idle(t, provider, xs)
  {
    forall row | row in NewRows(t, provider, xs) ensures row !in t {
      var x :| x in xs && !StartTaken(t, provider, x) && row == Row(provider, x);
      assert SameStart(row, Row(provider, x));
    }
  }

  /** Storing a range and then a later, overlapping one is storing both at once. */
  lemma StoresCombine(t: SlotRows, provider: Uuid, sweep: DateSlots, a: int, b: int, d: int, c: int)
    requires Additive(sweep) && a <= b <= d + 1 && d <= c && Fits(t, provider, sweep(a, c))
    ensures Stored(Stored(t, provider, sweep(a, d)), provider, sweep(b, c)) == Stored(t, provider, sweep(a, c))
  {
    var xs, ys := sweep(a, d), sweep(b, c);
    assert sweep(a, c) == xs + ys;
    AddTwice(t, provider, xs, ys);
    assert Fits(t, provider, xs) by {
      forall x | x in xs ensures StartTaken(t, provider, x) || !Blocked(t, provider, x) {
        assert x in sweep(a, c);
      }
    }
  }

  lemma StoresExtends(run: Materializer, t: SlotRows, provider: Uuid, sweep: DateSlots, fromDay: int, toDay: int)
    requires Additive(sweep) && Stores(run, provider, sweep) && Fits(t, provider, sweep(fromDay, toDay))
    ensures Extends(run, t, fromDay, toDay)
  {
    forall b, c, d | fromDay <= b <= c <= toDay && d == c - 1
      ensures run(run(t, fromDay, d), b, c) == run(t, fromDay, c)
    {
      assert sweep(fromDay, toDay) == sweep(fromDay, c) + sweep(c + 1, toDay);
      forall x | x in sweep(fromDay, c) ensures StartTaken(t, provider, x) || !Blocked(t, provider, x) {
        assert x in sweep(fromDay, toDay);
      }
      StoresCombine(t, provider, sweep, fromDay, b, d, c);
    }
  }

  /** The run of day `d` would leave `t` as it is. */
  ghost predicate Still(run: Materializer, t: SlotRows, d: int, horizon: nat) {
    run(t, d, d + horizon) == t
  }

  /** Runs that start from `t` change nothing exactly when each of them, on `t`, changes nothing. */
  lemma {:induction false} RolledIsStill(run: Materializer, t: SlotRows, fromDay: int, horizon: nat, n: nat)
    requires forall t, a, b :: t <= run(t, a, b)
    ensures t <= Rolled(run, t, fromDay, horizon, n)
    ensures Rolled(run, t, fromDay, horizon, n) == t <==>
            forall d | fromDay <= d <= fromDay + n :: Still(run, t, d, horizon)
  {
    if n == 0 {
      assert Still(run, t, fromDay, horizon) <==> run(t, fromDay, fromDay + horizon) == t;
    } else {
      var before, last := Rolled(run, t, fromDay, horizon, n - 1), fromDay + n;
      RolledIsStill(run, t, fromDay, horizon, n - 1);
      assert before <= run(before, last, last + horizon);
      assert before == t ==> (Still(run, t, last, horizon) <==> Rolled(run, t, fromDay, horizon, n) == t);
    }
  }

  /** The run of day `d` would add no row to `t`. */
  ghost predicate IdleOn(t: SlotRows, provider: Uuid, sweep: DateSlots, d: int, horizon: nat) {
    Idle(t, provider, sweep(d, d + horizon))
  }

  /** Rolling gives the table of one run over the whole range exactly when every slot of the whole range
      fits, or none of the daily runs, made on the table at the outset, would add a row. */
  lemma RollingExactly(run: Materializer, t: SlotRows, provider: Uuid, sweep: DateSlots,
                       fromDay: int, horizon: nat, n: nat)
    requires Additive(sweep) && Stores(run, provider, sweep)
    ensures Rolled(run, t, fromDay, horizon, n) == run(t, fromDay, fromDay + n + horizon) <==>
            Fits(t, provider, sweep(fromDay, fromDay + n + horizon)) ||
            forall d | fromDay <= d <= fromDay + n :: IdleOn(t, provider, sweep, d, horizon)
  {
    var toDay := fromDay + n + horizon;
    if Fits(t, provider, sweep(fromDay, toDay)) {
      StoresExtends(run, t, provider, sweep, fromDay, toDay);
      RolledIsOneRun(run, t, fromDay, horizon, n);
    } else {
      forall t', a, b ensures t' <= run(t', a, b) {
        StoredIsIdle(t', provider, sweep(a, b));
      }
      RolledIsStill(run, t, fromDay, horizon, n);
      forall d ensures Still(run, t, d, horizon) <==> IdleOn(t, provider, sweep, d, horizon) {
        StoredIsIdle(t, provider, sweep(d, d + horizon));
      }
    }
  }

  // ---------- and for the weekly rules ----------

  lemma {:induction false} SweepSplits(z: TimeZone, week: Week, m: nat, fromDay: int, mid: int, toDay: int)
    requires m > 0 && fromDay <= mid + 1 && mid <= toDay
    ensures Sweep(z, week, m, fromDay, toDay) == Sweep(z, week, m, fromDay, mid) + Sweep(z, week, m, mid + 1, toDay)
    decreases toDay - mid
  {
    if mid < toDay {
      SweepSplits(z, week, m, fromDay, mid, toDay - 1);
    }
  }

  function WeekSlots(z: TimeZone, week: Week, m: nat): DateSlots
    requires m > 0
  {
    (a, b) => Elements(Sweep(z, week, m, a, b))
  }

  function ForWeek(provider: Uuid, z: TimeZone, week: Week, m: nat, days: seq<int>): Materializer
    requires m > 0 && forall i | 0 <= i < |days| :: days[i] in week
  {
    (t, a, b) => RunWeek(t, provider, z, week, m, days, a, b)
  }

  lemma SlotsSplit(z: TimeZone, week: Week, m: nat, a: int, d: int, e: int, c: int)
    requires m > 0 && a <= e && d <= c && e == d + 1
    ensures WeekSlots(z, week, m)(a, c) == WeekSlots(z, week, m)(a, d) + WeekSlots(z, week, m)(e, c)
  {
    SweepSplits(z, week, m, a, d, c);
  }

  lemma WeekAdditive(z: TimeZone, week: Week, m: nat, j: nat)
    requires WeekFits(z, week, m, j)
    ensures Additive(WeekSlots(z, week, m))
  {
    var sweep := WeekSlots(z, week, m);
    forall a, b, d, c | a <= b <= d + 1 && d <= c ensures sweep(a, c) == sweep(a, d) + sweep(b, c) {
      var before, e := b - 1, d + 1;
      SlotsSplit(z, week, m, a, before, b, c);
      SlotsSplit(z, week, m, a, before, b, d);
      SlotsSplit(z, week, m, b, d, e, c);
    }
    forall a, b ensures Clear(sweep(a, b)) && ProperSet(sweep(a, b)) {
      SweepClear(z, week, m, j, a, b);
    }
  }

  lemma WeekStores(provider: Uuid, z: TimeZone, week: Week, m: nat, j: nat, days: seq<int>)
    requires WeekFits(z, week, m, j) && Lists(days, week)
    ensures Stores(ForWeek(provider, z, week, m, days), provider, WeekSlots(z, week, m))
  {
    forall t, a, b
      ensures ForWeek(provider, z, week, m, days)(t, a, b) == Stored(t, provider, WeekSlots(z, week, m)(a, b))
    {
      RunWeekAdds(t, provider, z, week, m, j, days, a, b);
    }
  }

  /** Rolling the window day by day gives the table of one run over the whole range exactly when every slot
      of the whole range fits, or none of the daily runs, made on the table at the outset, would add a row. */
  lemma RollingWeekExactly(t: SlotRows, provider: Uuid, z: TimeZone, week: Week, m: nat, j: nat,
                           days: seq<int>, fromDay: int, horizon: nat, n: nat)
    requires WeekFits(z, week, m, j) && Lists(days, week)
    ensures Rolled(ForWeek(provider, z, week, m, days), t, fromDay, horizon, n) ==
            ForWeek(provider, z, week, m, days)(t, fromDay, fromDay + n + horizon) <==>
            Fits(t, provider, WeekSlots(z, week, m)(fromDay, fromDay + n + horizon)) ||
            forall d | fromDay <= d <= fromDay + n :: IdleOn(t, provider, WeekSlots(z, week, m), d, horizon)
  {
    WeekAdditive(z, week, m, j);
    WeekStores(provider, z, week, m, j, days);
    RollingExactly(ForWeek(provider, z, week, m, days), t, provider, WeekSlots(z, week, m), fromDay, horizon, n);
  }

  // ---------- a rule moved by half an hour ----------

  const UTC := TimeZone(0, [])

  /** From nine to ten on Thursdays and Fridays. */
  const NINE_TO_TEN: Week := map[4 := Window(540, 600), 5 := Window(540, 600)]

  function NineOn(day: int): Interval {
    Interval(Local(day, 540), Local(day, 600))
  }

  lemma NineToTenDay(day: int)
    requires Weekday(day) in {4, 5}
    ensures SweepDate(UTC, NINE_TO_TEN, 60, day) == [NineOn(day)]
  {
    assert DaySlots(UTC, day, 600, 600, 60) == [];
  }

  lemma NineToTenSweeps()
    ensures Elements(Sweep(UTC, NINE_TO_TEN, 60, 0, 0)) == {NineOn(0)}
    ensures Elements(Sweep(UTC, NINE_TO_TEN, 60, 1, 1)) == {NineOn(1)}
    ensures NineOn(0) in Elements(Sweep(UTC, NINE_TO_TEN, 60, 0, 1))
  {
    NineToTenDay(0);
    NineToTenDay(1);
    assert Sweep(UTC, NINE_TO_TEN, 60, 0, -1) == [];
    assert Sweep(UTC, NINE_TO_TEN, 60, 1, 0) == [];
    assert Sweep(UTC, NINE_TO_TEN, 60, 0, 0) == [NineOn(0)];
    assert Sweep(UTC, NINE_TO_TEN, 60, 1, 1) == [NineOn(1)];
    assert Sweep(UTC, NINE_TO_TEN, 60, 0, 1) == [NineOn(0)] + [NineOn(1)];
    assert Sweep(UTC, NINE_TO_TEN, 60, 0, 1)[0] == NineOn(0);
  }

  /** A slot booked at half past nine, when the rule still began then. */
  function BookedBefore(provider: Uuid): Slot {
    Slot(provider, Local(0, 570), Local(0, 630), SlotBooked)
  }

  lemma NineFits(provider: Uuid, xs: set<Interval>)
    ensures NineOn(0) in xs ==> !Fits({BookedBefore(provider)}, provider, xs)
    ensures xs == {NineOn(1)} ==> Fits({BookedBefore(provider)}, provider, xs) &&
                                  NewRows({BookedBefore(provider)}, provider, xs) == {Row(provider, NineOn(1))}
  {
    var t := {BookedBefore(provider)};
    assert BookedBefore(provider) in t && Overlaps(BookedBefore(provider), Row(provider, NineOn(0)));
    assert !StartTaken(t, provider, NineOn(0)) && Blocked(t, provider, NineOn(0));
    assert !StartTaken(t, provider, NineOn(1)) && !Blocked(t, provider, NineOn(1));
  }

  lemma NineToTenRuns(provider: Uuid, t: SlotRows, fromDay: int, toDay: int)
    requires t == {BookedBefore(provider)} && fromDay in {0, 1} && toDay in {fromDay, 1}
    ensures RunWeek(t, provider, UTC, NINE_TO_TEN, 60, [4, 5], fromDay, toDay) ==
            if fromDay == 1 then t + {Row(provider, NineOn(1))} else t
  {
    assert WeekFits(UTC, NINE_TO_TEN, 60, 0) && Lists([4, 5], NINE_TO_TEN);
    var sweep := Elements(Sweep(UTC, NINE_TO_TEN, 60, fromDay, toDay));
    NineToTenSweeps();
    NineFits(provider, sweep);
    RunWeekAdds(t, provider, UTC, NINE_TO_TEN, 60, 0, [4, 5], fromDay, toDay);
  }

  /** The rule moves to nine o'clock: one run over that day and the next fails as a whole and stores
      nothing, while the second of two daily runs stores its slot. */
  lemma MovedRuleDiffers(provider: Uuid)
    ensures var t, run := {BookedBefore(provider)}, ForWeek(provider, UTC, NINE_TO_TEN, 60, [4, 5]);
            run(t, 0, 1) == t && Rolled(run, t, 0, 0, 1) == t + {Row(provider, NineOn(1))} != t
  {
    var t, run := {BookedBefore(provider)}, ForWeek(provider, UTC, NINE_TO_TEN, 60, [4, 5]);
    NineToTenRuns(provider, t, 0, 0);
    NineToTenRuns(provider, t, 0, 1);
    NineToTenRuns(provider, t, 1, 1);
    assert Rolled(run, t, 0, 0, 0) == run(t, 0, 0);
    assert Rolled(run, t, 0, 0, 1) == run(Rolled(run, t, 0, 0, 0), 1, 1);
    assert Row(provider, NineOn(1)) !in t;
  }

  // ---------- the service ----------

  datatype Stats = Stats(rulesProcessed: nat, slotsCreated: nat, slotsSkipped: nat, errors: nat)

  /** The grouping loop. */
  method GroupRules(rules: seq<Rule>) returns (byDow: Week, daysList: seq<int>)
    ensures byDow == Grouped(rules) && daysList == KeysInOrder(rules) && Lists(daysList, byDow)
  {
    byDow, daysList := map[], [];
    var i := 0;
    while i < |rules|
      invariant 0 <= i <= |rules|
      invariant byDow == Grouped(rules[..i]) && daysList == KeysInOrder(rules[..i])
    {
      var r := rules[i];
      assert rules[..i + 1][..i] == rules[..i];
      if r.weekday !in byDow {
        daysList := daysList + [r.weekday];
      }
      if r.weekday !in byDow || byDow[r.weekday].start > r.start {
        byDow := byDow[r.weekday := Window(r.start, r.end)];
      }
      i := i + 1;
    }
    assert rules[..i] == rules;
    KeysListed(rules);
  }

  /** The expansion loop: sixty-minute slots, weekday after weekday. */
  method ExpandWeek(z: TimeZone, byDow: Week, daysList: seq<int>, fromDay: int, toDay: int)
      returns (slots: seq<Interval>)
    requires fromDay <= toDay && forall i | 0 <= i < |daysList| :: daysList[i] in byDow
    ensures slots == Expand(z, byDow, 60, daysList, fromDay, toDay)
  {
    slots := [];
    var i := 0;
    while i < |daysList|
      invariant 0 <= i <= |daysList|
      invariant slots == Expand(z, byDow, 60, daysList[..i], fromDay, toDay)
    {
      var generated := GenerateSlots(z, DayRules(daysList[i], byDow[daysList[i]]), 60, fromDay, toDay);
      assert daysList[..i + 1][..i] == daysList[..i];
      slots := slots + generated.slots;
      i := i + 1;
    }
    assert daysList[..i] == daysList;
  }

  /** The loop body of `MaterializerService.materialize` for one provider.  `duplicateCode`
      says whether a failing statement reports the client's duplicate-key code. */
  method MaterializeRules(table: SlotTable, provider: Uuid, z: TimeZone, rules: seq<Rule>, fromDay: int, toDay: int,
                          duplicateCode: bool, stats: Stats) returns (counted: Stats, ghost batch: seq<Interval>)
    requires fromDay <= toDay
    modifies table
    ensures Lists(KeysInOrder(rules), Grouped(rules))
    ensures batch == Expand(z, Grouped(rules), 60, KeysInOrder(rules), fromDay, toDay)
    ensures table.rows == RunWeek(old(table.rows), provider, z, Grouped(rules), 60, KeysInOrder(rules), fromDay, toDay)
    ensures counted.rulesProcessed == stats.rulesProcessed + |rules|
    ensures Batch(old(table.rows), provider, batch).Some? ==>
              counted.slotsCreated == stats.slotsCreated + |batch| &&
              counted.slotsSkipped == stats.slotsSkipped && counted.errors == stats.errors
    ensures Batch(old(table.rows), provider, batch).None? ==>
              counted.slotsCreated == stats.slotsCreated &&
              counted.slotsSkipped == stats.slotsSkipped + (if duplicateCode then |batch| else 0) &&
              counted.errors == stats.errors + (if duplicateCode then 0 else |batch|)
  {
    var byDow, daysList := GroupRules(rules);
    var slots := ExpandWeek(z, byDow, daysList, fromDay, toDay);
    batch := slots;
    var stored := StoreBatch(table, provider, slots);
    counted := stats.(rulesProcessed := stats.rulesProcessed + |rules|);
    if stored {
      counted := counted.(slotsCreated := counted.slotsCreated + |slots|);
    } else if duplicateCode {
      counted := counted.(slotsSkipped := counted.slotsSkipped + |slots|);
    } else {
      counted := counted.(errors := counted.errors + |slots|);
    }
  }

  /** The batch statement: all of it or none. */
  method StoreBatch(table: SlotTable, provider: Uuid, slots: seq<Interval>) returns (stored: bool)
    modifies table
    ensures stored <==> Batch(old(table.rows), provider, slots).Some?
    ensures table.rows == if stored then Batch(old(table.rows), provider, slots).value else old(table.rows)
  {
    var rows := table.rows;
    var i := 0;
    while i < |slots|
      invariant 0 <= i <= |slots|
      invariant Batch(old(table.rows), provider, slots[..i]) == Some(rows)
      invariant table.rows == old(table.rows)
    {
      var row := Row(provider, slots[i]);
      assert slots[..i + 1][..i] == slots[..i];
      if exists r | r in rows :: SameStart(r, row) {
      } else if exists r | r in rows :: Overlaps(r, row) {
        BatchFails(table.rows, provider, slots, i + 1);
        return false;
      } else {
        rows := rows + {row};
      }
      i := i + 1;
    }
    assert slots[..i] == slots;
    table.rows := rows;
    stored := true;
  }

  lemma {:induction false} BatchFails(t: SlotRows, provider: Uuid, xs: seq<Interval>, n: nat)
    requires n <= |xs| && Batch(t, provider, xs[..n]).None?
    ensures Batch(t, provider, xs).None?
  {
    if n < |xs| {
      assert xs[..|xs| - 1][..n] == xs[..n];
      BatchFails(t, provider, xs[..|xs| - 1], n);
    } else {
      assert xs[..n] == xs;
    }
  }
}
