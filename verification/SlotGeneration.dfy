/** `generateSlots`: a grid of local times on each date, every grid point resolved to UTC. */
module SlotGeneration {
  import opened Tables
  import opened Zone

  const DAY := 86_400_000

  /** A generated slot: its two instants. */
  datatype Interval = Interval(start: int, end: int)

  datatype Rules = Rules(days: Option<seq<int>>, startMinute: Option<int>, endMinute: Option<int>)

  datatype Outcome = Generated(slots: seq<Interval>) | OutOfRange

  function WindowStart(r: Rules): int {
    if r.startMinute.Some? then r.startMinute.value else 540
  }

  function WindowEnd(r: Rules): int {
    if r.endMinute.Some? then r.endMinute.value else 1020
  }

  /** ISO weekday (1 = Monday) of a day counted from 1970-01-01, a Thursday. */
  function Weekday(day: int): int {
    (day + 3) % 7 + 1
  }

  predicate Selected(r: Rules, day: int) {
    r.days.None? || Weekday(day) in r.days.value
  }

  /** The minute of the day a grid point is read as: an hour past 23 is constrained to 23, its minutes stay. */
  function WallMinute(minute: int): int {
    if minute < 1440 then minute else 1380 + minute % 60
  }

  function Local(day: int, minute: int): int {
    day * DAY + minute * MS_PER_MINUTE
  }

  function At(z: TimeZone, day: int, minute: int): int {
    Resolve(z, Local(day, WallMinute(minute)))
  }

  /** The window is one that `HH:MM` texts can name: it starts within the day and ends by 24:00. */
  predicate ClockWindow(r: Rules) {
    0 <= WindowStart(r) < 1440 && WindowEnd(r) <= 1440
  }

  /** The slot between two grid points, kept only when they resolve in order. */
  function Kept(start: int, end: int): seq<Interval> {
    if start < end then [Interval(start, end)] else []
  }

  /** The slots of one date from local minute `from` to `until`. */
  function DaySlots(z: TimeZone, day: int, from: int, until: int, m: nat): seq<Interval>
    requires m > 0
    decreases until - from
  {
    if from + m > until then []
    else Kept(At(z, day, from), At(z, day, from + m)) + DaySlots(z, day, from + m, until, m)
  }

  function DatePart(z: TimeZone, r: Rules, m: nat, day: int): seq<Interval>
    requires m > 0
  {
    if Selected(r, day) then DaySlots(z, day, WindowStart(r), WindowEnd(r), m) else []
  }

  /** Date after date, in the order of the loop. */
  function RangeSlots(z: TimeZone, r: Rules, m: nat, fromDay: int, toDay: int): seq<Interval>
    requires m > 0
    decreases toDay - fromDay
  {
    if toDay < fromDay then []
    else RangeSlots(z, r, m, fromDay, toDay - 1) + DatePart(z, r, m, toDay)
  }

  // ---------- which slots are generated ----------

  /** The weekdays run from Monday, 1, to Sunday, 7, and the fifth of January 1970 was a Monday. */
  lemma WeekdayIso(day: int, d: int)
    requires 1 <= d <= 7
    ensures 1 <= Weekday(day) <= 7 && Weekday(day + 1) == Weekday(day) % 7 + 1
    ensures Weekday(4) == 1
    ensures Weekday(day) == d <==> (day - 4 - (d - 1)) % 7 == 0
  {
  }

  /** A text `HH:MM` as the instant it names on a day: an hour past 23 is read as 23. */
  ghost predicate Names(z: TimeZone, day: int, minute: int, instant: int) {
    instant ==
    Resolve(z, day * 86_400_000 + (if minute < 1440 then minute else 23 * 60 + minute % 60) * 60_000)
  }

  /** The slot runs between the `k`-th grid point from `from` and the next, in order and by `until`. */
  ghost predicate GridSlot(z: TimeZone, day: int, from: int, until: int, m: nat, k: nat, x: Interval) {
    from + k * m + m <= until && x.start < x.end &&
    Names(z, day, from + k * m, x.start) && Names(z, day, from + k * m + m, x.end)
  }

  ghost predicate OnGridOf(z: TimeZone, day: int, from: int, until: int, m: nat, x: Interval) {
    exists k: nat :: GridSlot(z, day, from, until, m, k, x)
  }

  lemma {:induction false} DaySlotsExactly(z: TimeZone, day: int, from: int, until: int, m: nat, x: Interval)
    requires m > 0
    ensures x in DaySlots(z, day, from, until, m) <==> OnGridOf(z, day, from, until, m, x)
    decreases until - from
  {
    if from + m <= until {
      var next := from + m;
      DaySlotsExactly(z, day, next, until, m, x);
      if x in Kept(At(z, day, from), At(z, day, next)) {
        assert GridSlot(z, day, from, until, m, 0, x);
      }
      if k: nat :| GridSlot(z, day, next, until, m, k, x) {
        GridShift(z, day, from, until, m, k, x);
      }
      if k: nat :| GridSlot(z, day, from, until, m, k, x) {
        if k > 0 {
          GridShift(z, day, from, until, m, k - 1, x);
        }
      }
    } else {
      forall k: nat ensures !GridSlot(z, day, from, until, m, k, x) {
        NotNegative(k, m);
      }
    }
  }

  lemma NotNegative(k: nat, m: nat)
    ensures k * m >= 0
  {
  }

  lemma GridShift(z: TimeZone, day: int, from: int, until: int, m: nat, k: nat, x: Interval)
    ensures GridSlot(z, day, from + m, until, m, k, x) <==> GridSlot(z, day, from, until, m, k + 1, x)
  {
    OneMore(k, m);
  }

  /** Whole weeks lie between the date and the first one of ISO weekday `d` from the fifth of January 1970. */
  predicate WeeksApart(day: int, d: int) {
    (day - 4 - (d - 1)) % 7 == 0
  }

  /** The dates the rules select: all without weekdays, else those of a weekday listed. */
  predicate OnListedDay(r: Rules, day: int) {
    r.days.None? || exists i | 0 <= i < |r.days.value| :: WeeksApart(day, r.days.value[i])
  }

  predicate IsoDays(r: Rules) {
    r.days.Some? ==> forall i | 0 <= i < |r.days.value| :: 1 <= r.days.value[i] <= 7
  }

  lemma ListedExactly(r: Rules, day: int)
    requires IsoDays(r)
    ensures Selected(r, day) <==> OnListedDay(r, day)
  {
    if r.days.Some? {
      var days := r.days.value;
      forall i | 0 <= i < |days| ensures days[i] == Weekday(day) <==> WeeksApart(day, days[i]) {
        WeekdayIso(day, days[i]);
      }
    }
  }

  /** On one of the dates, the slot is one of the grid's from the rules' start, nine o'clock if none, to their
      end, five o'clock if none. */
  ghost predicate SlotOfDate(z: TimeZone, r: Rules, m: nat, day: int, x: Interval) {
    OnListedDay(r, day) &&
    OnGridOf(z, day, if r.startMinute.Some? then r.startMinute.value else 9 * 60,
             if r.endMinute.Some? then r.endMinute.value else 17 * 60, m, x)
  }

  lemma DatePartExactly(z: TimeZone, r: Rules, m: nat, day: int, x: Interval)
    requires m > 0 && IsoDays(r)
    ensures x in DatePart(z, r, m, day) <==> SlotOfDate(z, r, m, day, x)
  {
    ListedExactly(r, day);
    DaySlotsExactly(z, day, WindowStart(r), WindowEnd(r), m, x);
  }

  lemma {:induction false} RangeExactly(z: TimeZone, r: Rules, m: nat, fromDay: int, toDay: int, x: Interval)
    requires m > 0 && IsoDays(r)
    ensures x in RangeSlots(z, r, m, fromDay, toDay) <==>
            exists day | fromDay <= day <= toDay :: SlotOfDate(z, r, m, day, x)
    decreases toDay - fromDay
  {
    if fromDay <= toDay {
      RangeExactly(z, r, m, fromDay, toDay - 1, x);
      DatePartExactly(z, r, m, toDay, x);
    }
  }

  /** For every zone and rule, gaps and folds included: the output holds exactly the slots of the selected dates'
      grids. */
  lemma GeneratedExactly(z: TimeZone, r: Rules, m: nat, fromDay: int, toDay: int, x: Interval)
    requires m > 0 && IsoDays(r)
    ensures x in Generate(z, r, m, fromDay, toDay) <==>
            exists day | fromDay <= day <= toDay :: SlotOfDate(z, r, m, day, x)
  {
    var s, dates := Generate(z, r, m, fromDay, toDay), RangeSlots(z, r, m, fromDay, toDay);
    RangeExactly(z, r, m, fromDay, toDay, x);
    GenerateSorted(z, r, m, fromDay, toDay);
    assert x in s <==> x in multiset(s);
    assert x in dates <==> x in multiset(dates);
  }

  // ---------- stable sorting by start ----------

  /** `x` goes after every element that does not start later. */
  function Insert(s: seq<Interval>, x: Interval): seq<Interval> {
    if s == [] || s[|s| - 1].start <= x.start then s + [x]
    else Insert(s[..|s| - 1], x) + [s[|s| - 1]]
  }

  function InsertAll(s: seq<Interval>, xs: seq<Interval>): seq<Interval> {
    if xs == [] then s else Insert(InsertAll(s, xs[..|xs| - 1]), xs[|xs| - 1])
  }

  function SortByStart(xs: seq<Interval>): seq<Interval> {
    InsertAll([], xs)
  }

  function Generate(z: TimeZone, r: Rules, m: nat, fromDay: int, toDay: int): seq<Interval>
    requires m > 0
  {
    SortByStart(RangeSlots(z, r, m, fromDay, toDay))
  }

  predicate Sorted(s: seq<Interval>) {
    forall i, j | 0 <= i < j < |s| :: s[i].start <= s[j].start
  }

  lemma {:induction false} InsertMembers(s: seq<Interval>, x: Interval)
    ensures multiset(Insert(s, x)) == multiset(s) + multiset{x}
  {
    if s != [] && s[|s| - 1].start > x.start {
      InsertMembers(s[..|s| - 1], x);
      assert s == s[..|s| - 1] + [s[|s| - 1]];
    }
  }

  lemma {:induction false} InsertSorts(s: seq<Interval>, x: Interval)
    requires Sorted(s)
    ensures Sorted(Insert(s, x))
    ensures forall i | 0 <= i < |Insert(s, x)| ::
              Insert(s, x)[i].start <= x.start || Insert(s, x)[i].start <= s[|s| - 1].start
  {
    if s != [] && s[|s| - 1].start > x.start {
      InsertSorts(s[..|s| - 1], x);
    }
  }

  lemma {:induction false} InsertAllAscends(s: seq<Interval>, xs: seq<Interval>)
    requires Sorted(s)
    ensures Sorted(InsertAll(s, xs))
  {
    if xs != [] {
      InsertAllAscends(s, xs[..|xs| - 1]);
      InsertSorts(InsertAll(s, xs[..|xs| - 1]), xs[|xs| - 1]);
    }
  }

  lemma InsertAllLast(s: seq<Interval>, rest: seq<Interval>, x: Interval)
    ensures InsertAll(s, rest + [x]) == Insert(InsertAll(s, rest), x)
  {
    assert (rest + [x])[..|rest|] == rest;
  }

  lemma {:induction false} InsertAllMembers(s: seq<Interval>, xs: seq<Interval>)
    ensures multiset(InsertAll(s, xs)) == multiset(s) + multiset(xs)
  {
    if xs != [] {
      var rest, x := xs[..|xs| - 1], xs[|xs| - 1];
      var before, after := InsertAll(s, rest), InsertAll(s, xs);
      assert xs == rest + [x];
      InsertAllMembers(s, rest);
      InsertAllLast(s, rest, x);
      InsertMembers(before, x);
      assert multiset(after) == multiset(before) + multiset{x};
    }
  }

  lemma InsertAllSorts(s: seq<Interval>, xs: seq<Interval>)
    requires Sorted(s)
    ensures Sorted(InsertAll(s, xs)) && multiset(InsertAll(s, xs)) == multiset(s) + multiset(xs)
  {
    InsertAllAscends(s, xs);
    InsertAllMembers(s, xs);
  }

  /** The output is sorted by start and holds exactly the slots of the dates. */
  lemma GenerateSorted(z: TimeZone, r: Rules, m: nat, fromDay: int, toDay: int)
    requires m > 0
    ensures Sorted(Generate(z, r, m, fromDay, toDay))
    ensures multiset(Generate(z, r, m, fromDay, toDay)) == multiset(RangeSlots(z, r, m, fromDay, toDay))
  {
    InsertAllSorts([], RangeSlots(z, r, m, fromDay, toDay));
  }

  lemma {:induction false} InsertAllConcat(s: seq<Interval>, xs: seq<Interval>, ys: seq<Interval>)
    ensures InsertAll(s, xs + ys) == InsertAll(InsertAll(s, xs), ys)
  {
    if ys == [] {
      assert xs + ys == xs;
    } else {
      InsertAllConcat(s, xs, ys[..|ys| - 1]);
      assert (xs + ys)[..|xs + ys| - 1] == xs + ys[..|ys| - 1];
    }
  }

  /** Sorting what is already sorted changes nothing. */
  lemma {:induction false} SortedIsFixed(s: seq<Interval>)
    requires Sorted(s)
    ensures SortByStart(s) == s
  {
    if s != [] {
      SortedIsFixed(s[..|s| - 1]);
    }
  }

  /** Two elements with different starts may be inserted in either order. */
  lemma {:induction false} InsertCommutes(s: seq<Interval>, x: Interval, y: Interval)
    requires Sorted(s) && x.start != y.start
    ensures Insert(Insert(s, x), y) == Insert(Insert(s, y), x)
  {
    if s != [] {
      var front, last := s[..|s| - 1], s[|s| - 1];
      if last.start > x.start && last.start > y.start {
        InsertCommutes(front, x, y);
        assert (Insert(front, x) + [last])[..|Insert(front, x)|] == Insert(front, x);
        assert (Insert(front, y) + [last])[..|Insert(front, y)|] == Insert(front, y);
      } else if last.start > x.start {
        assert (s + [y])[..|s|] == s;
      } else if last.start > y.start {
        assert (s + [x])[..|s|] == s;
      } else {
        assert (s + [x])[..|s|] == s && (s + [y])[..|s|] == s;
      }
    } else {
      assert ([x])[..0] == [] && ([y])[..0] == [];
    }
  }

  lemma {:induction false} InsertLate(x: seq<Interval>, y: seq<Interval>, q: Interval)
    requires Sorted(x)
    ensures InsertAll(x, Insert(y, q)) == Insert(InsertAll(x, y), q)
  {
    if y == [] || y[|y| - 1].start <= q.start {
      assert (y + [q])[..|y|] == y;
    } else {
      var front, last := y[..|y| - 1], y[|y| - 1];
      InsertLate(x, front, q);
      assert (Insert(front, q) + [last])[..|Insert(front, q)|] == Insert(front, q);
      InsertAllSorts(x, front);
      InsertCommutes(InsertAll(x, front), q, last);
    }
  }

  /** Inserting a sorted batch gives the same as inserting it in its original order. */
  lemma {:induction false} InsertSortedBatch(x: seq<Interval>, b: seq<Interval>)
    requires Sorted(x)
    ensures InsertAll(x, SortByStart(b)) == InsertAll(x, b)
  {
    if b != [] {
      InsertSortedBatch(x, b[..|b| - 1]);
      InsertLate(x, SortByStart(b[..|b| - 1]), b[|b| - 1]);
    }
  }

  /** Sorting a concatenation is merging the two sorted halves. */
  lemma SortMerges(a: seq<Interval>, b: seq<Interval>)
    ensures SortByStart(a + b) == SortByStart(SortByStart(a) + SortByStart(b))
  {
    InsertAllSorts([], a);
    InsertAllConcat([], a, b);
    InsertAllConcat([], SortByStart(a), SortByStart(b));
    SortedIsFixed(SortByStart(a));
    InsertSortedBatch(SortByStart(a), b);
  }

  lemma {:induction false} RangeSplits(z: TimeZone, r: Rules, m: nat, fromDay: int, mid: int, toDay: int)
    requires m > 0 && fromDay <= mid + 1 && mid <= toDay
    ensures RangeSlots(z, r, m, fromDay, toDay) ==
            RangeSlots(z, r, m, fromDay, mid) + RangeSlots(z, r, m, mid + 1, toDay)
    decreases toDay - mid
  {
    if mid < toDay {
      RangeSplits(z, r, m, fromDay, mid, toDay - 1);
    }
  }

  /** Generating a range is merging what its two halves generate, for every zone and rule. */
  lemma GenerateSplits(z: TimeZone, r: Rules, m: nat, fromDay: int, mid: int, toDay: int)
    requires m > 0 && fromDay <= mid + 1 && mid <= toDay
    ensures Generate(z, r, m, fromDay, toDay) ==
            SortByStart(Generate(z, r, m, fromDay, mid) + Generate(z, r, m, mid + 1, toDay))
  {
    RangeSplits(z, r, m, fromDay, mid, toDay);
    SortMerges(RangeSlots(z, r, m, fromDay, mid), RangeSlots(z, r, m, mid + 1, toDay));
  }

  // ---------- disjointness ----------

  /** Each slot ends no later than every later one starts: sorted and pairwise disjoint at once. */
  predicate Ordered(s: seq<Interval>) {
    forall i, j | 0 <= i < j < |s| :: s[i].end <= s[j].start
  }

  predicate Disjoint(s: seq<Interval>) {
    forall i, j | 0 <= i < j < |s| :: s[i].end <= s[j].start || s[j].end <= s[i].start
  }

  /** Every slot is a proper interval between `lo` and `hi`. */
  predicate Within(s: seq<Interval>, lo: int, hi: int) {
    forall i | 0 <= i < |s| :: lo <= s[i].start < s[i].end <= hi
  }

  lemma OrderedIsSorted(s: seq<Interval>, lo: int, hi: int)
    requires Ordered(s) && Within(s, lo, hi)
    ensures Sorted(s) && Disjoint(s)
  {
  }

  lemma OrderedConcat(a: seq<Interval>, b: seq<Interval>, lo: int, mid: int, hi: int)
    requires Ordered(a) && Ordered(b) && Within(a, lo, mid) && Within(b, mid, hi) && lo <= mid <= hi
    ensures Ordered(a + b) && Within(a + b, lo, hi)
  {
  }

  /** The dates' windows hold nothing skipped, or no jump exceeds the slot length. */
  ghost predicate Steady(z: TimeZone, day: int, from: int, until: int, m: nat, j: nat) {
    j <= m * MS_PER_MINUTE || GapFree(z, Local(day, from), Local(day, until))
  }

  lemma SteadyOrder(z: TimeZone, day: int, from: int, until: int, m: nat, j: nat)
    requires Valid(z) && JumpsAtMost(z, j) && from + m <= until && Steady(z, day, from, until, m, j)
    ensures Resolve(z, Local(day, from)) <= Resolve(z, Local(day, from + m))
    ensures Steady(z, day, from + m, until, m, j)
  {
    if j <= m * MS_PER_MINUTE {
      ResolveMonotone(z, Local(day, from), Local(day, from + m), j);
    } else if m > 0 {
      ResolveIncreasing(z, Local(day, from), Local(day, from + m));
    }
  }

  /** The last grid point at which a slot ends, or the first point if there is no slot.  An hourly
      slot that would end at midnight is none: its end is read as 23:00, where it begins. */
  function LastPoint(from: int, until: int, m: nat): (r: int)
    requires m > 0
    ensures from <= r && (r == from || r <= until)
    decreases until - from
  {
    if from + m > until || (from + m == 1440 && m == 60) then from else LastPoint(from + m, until, m)
  }

  /** An hourly grid takes up at most 23 hours of a day. */
  lemma {:induction false} HourGrid(from: int, until: int)
    requires from < 1440 && until <= 1440
    ensures LastPoint(from, until, 60) < 1440 && (LastPoint(from, until, 60) - from) % 60 == 0
    decreases until - from
  {
    if from + 60 <= until && from + 60 != 1440 {
      HourGrid(from + 60, until);
    }
  }

  lemma KeptOrdered(a: int, b: int, rest: seq<Interval>, hi: int)
    requires a <= b <= hi && Ordered(rest) && Within(rest, b, hi)
    ensures Ordered(Kept(a, b) + rest) && Within(Kept(a, b) + rest, a, hi)
  {
  }

  lemma KeptAlone(a: int, b: int, hi: int)
    requires b <= hi
    ensures Ordered(Kept(a, b)) && Within(Kept(a, b), a, hi)
  {
  }

  lemma FirstSlot(z: TimeZone, day: int, from: int, until: int, m: nat, rest: seq<Interval>)
    requires m > 0 && from + m <= until && rest == DaySlots(z, day, from + m, until, m)
    ensures DaySlots(z, day, from, until, m) == Kept(At(z, day, from), At(z, day, from + m)) + rest
  {
  }

  /** `bound` is a wall-clock time `j` past the last slot of the window. */
  lemma {:induction false} DayOrdered(z: TimeZone, day: int, from: int, until: int, m: nat, j: nat, bound: int)
    requires m > 0 && Valid(z) && JumpsAtMost(z, j) && Steady(z, day, from, until, m, j)
    requires Local(day, LastPoint(from, until, m)) + j <= bound && until <= 1440
    ensures Ordered(DaySlots(z, day, from, until, m))
    ensures from < 1440 ==> Within(DaySlots(z, day, from, until, m), At(z, day, from), Resolve(z, bound))
    decreases until - from
  {
    if from + m <= until {
      var rest, next := DaySlots(z, day, from + m, until, m), from + m;
      FirstSlot(z, day, from, until, m, rest);
      if next == 1440 {
        assert rest == [];
        if m != 60 {
          ResolveMonotone(z, Local(day, WallMinute(next)), bound, j);
        }
        KeptAlone(At(z, day, from), At(z, day, next), if m == 60 then At(z, day, next) else Resolve(z, bound));
      } else {
        DayOrdered(z, day, next, until, m, j, bound);
        SteadyOrder(z, day, from, until, m, j);
        ResolveMonotone(z, Local(day, next), bound, j);
        KeptOrdered(At(z, day, from), At(z, day, next), rest, Resolve(z, bound));
      }
    }
  }

  /** The window holds a slot. */
  predicate Yields(r: Rules, m: nat) {
    WindowStart(r) + m <= WindowEnd(r)
  }

  /** Slots of successive dates are at least `j` apart on the wall clock. */
  predicate WindowsApart(r: Rules, m: nat, j: nat)
    requires m > 0
  {
    Yields(r, m) ==> (LastPoint(WindowStart(r), WindowEnd(r), m) - WindowStart(r)) * MS_PER_MINUTE + j <= DAY
  }

  ghost predicate SteadyDate(z: TimeZone, r: Rules, m: nat, j: nat, day: int) {
    Selected(r, day) ==> Steady(z, day, WindowStart(r), WindowEnd(r), m, j)
  }

  /** Zone and rule for which the starts of one date never come after those of a later one. */
  predicate DatesApart(z: TimeZone, r: Rules, m: nat, j: nat) {
    m > 0 && Valid(z) && JumpsAtMost(z, j) && ClockWindow(r) && WindowsApart(r, m, j)
  }

  lemma DatePartOrdered(z: TimeZone, r: Rules, m: nat, day: int, j: nat)
    requires DatesApart(z, r, m, j) && SteadyDate(z, r, m, j, day)
    ensures Ordered(DatePart(z, r, m, day))
    ensures Within(DatePart(z, r, m, day), At(z, day, WindowStart(r)), At(z, day + 1, WindowStart(r)))
  {
    if Yields(r, m) && Selected(r, day) {
      DayOrdered(z, day, WindowStart(r), WindowEnd(r), m, j, Local(day + 1, WindowStart(r)));
    }
  }

  lemma {:induction false} RangeOrdered(z: TimeZone, r: Rules, m: nat, fromDay: int, toDay: int, j: nat)
    requires DatesApart(z, r, m, j) && Yields(r, m) && fromDay <= toDay + 1
    requires forall day | fromDay <= day <= toDay :: SteadyDate(z, r, m, j, day)
    ensures Ordered(RangeSlots(z, r, m, fromDay, toDay))
    ensures Within(RangeSlots(z, r, m, fromDay, toDay),
                   At(z, fromDay, WindowStart(r)), At(z, toDay + 1, WindowStart(r)))
    decreases toDay - fromDay
  {
    if fromDay <= toDay {
      var start := WindowStart(r);
      RangeOrdered(z, r, m, fromDay, toDay - 1, j);
      DatePartOrdered(z, r, m, toDay, j);
      if fromDay < toDay {
        ResolveMonotone(z, Local(fromDay, start), Local(toDay, start), j);
      }
      ResolveMonotone(z, Local(toDay, start), Local(toDay + 1, start), j);
      OrderedConcat(RangeSlots(z, r, m, fromDay, toDay - 1), DatePart(z, r, m, toDay),
                    At(z, fromDay, start), At(z, toDay, start), At(z, toDay + 1, start));
    }
  }

  lemma {:induction false} RangeEmpty(z: TimeZone, r: Rules, m: nat, fromDay: int, toDay: int)
    requires m > 0 && !Yields(r, m)
    ensures RangeSlots(z, r, m, fromDay, toDay) == []
    decreases toDay - fromDay
  {
    if fromDay <= toDay {
      RangeEmpty(z, r, m, fromDay, toDay - 1);
    }
  }

  /** The slots of a range are pairwise disjoint when the daily windows leave room for the zone's
      largest forward jump and each date's window either holds nothing skipped or belongs to
      slots no jump exceeds.  The output is then the dates' slots one after another. */
  lemma SteadyDisjoint(z: TimeZone, r: Rules, m: nat, fromDay: int, toDay: int, j: nat)
    requires DatesApart(z, r, m, j) && fromDay <= toDay + 1
    requires forall day | fromDay <= day <= toDay :: SteadyDate(z, r, m, j, day)
    ensures Disjoint(Generate(z, r, m, fromDay, toDay)) && Ordered(Generate(z, r, m, fromDay, toDay))
    ensures Generate(z, r, m, fromDay, toDay) == RangeSlots(z, r, m, fromDay, toDay)
  {
    if !Yields(r, m) {
      RangeEmpty(z, r, m, fromDay, toDay);
    } else {
      RangeOrdered(z, r, m, fromDay, toDay, j);
      OrderedIsSorted(RangeSlots(z, r, m, fromDay, toDay),
                      At(z, fromDay, WindowStart(r)), At(z, toDay + 1, WindowStart(r)));
      SortedIsFixed(RangeSlots(z, r, m, fromDay, toDay));
    }
  }

  /** In particular in every zone none of whose forward jumps exceeds the slot length. */
  lemma GeneratedDisjoint(z: TimeZone, r: Rules, m: nat, fromDay: int, toDay: int, j: nat)
    requires DatesApart(z, r, m, j) && j <= m * MS_PER_MINUTE && fromDay <= toDay + 1
    ensures Disjoint(Generate(z, r, m, fromDay, toDay)) && Ordered(Generate(z, r, m, fromDay, toDay))
    ensures Generate(z, r, m, fromDay, toDay) == RangeSlots(z, r, m, fromDay, toDay)
  {
    SteadyDisjoint(z, r, m, fromDay, toDay, j);
  }

  /** So the materializer's 60-minute slots never overlap in a zone whose jumps are an hour or less,
      whatever the daily window: an hourly grid never takes up more than 23 hours of a day. */
  lemma HourSlotsDisjoint(z: TimeZone, r: Rules, fromDay: int, toDay: int)
    requires Valid(z) && JumpsAtMost(z, 60 * MS_PER_MINUTE) && ClockWindow(r) && fromDay <= toDay + 1
    ensures Disjoint(Generate(z, r, 60, fromDay, toDay))
  {
    HourGrid(WindowStart(r), WindowEnd(r));
    GeneratedDisjoint(z, r, 60, fromDay, toDay, 60 * MS_PER_MINUTE);
  }

  const OFFICE_HOURS := Rules(None, Some(540), Some(1020))

  /** The provider materializer's half-hour slots never overlap in such a zone as long as no clock
      change falls into office hours. */
  lemma OfficeHoursDisjoint(z: TimeZone, fromDay: int, toDay: int)
    requires Valid(z) && JumpsAtMost(z, 60 * MS_PER_MINUTE) && fromDay <= toDay + 1
    requires forall day | fromDay <= day <= toDay :: GapFree(z, Local(day, 540), Local(day, 1020))
    ensures Disjoint(Generate(z, OFFICE_HOURS, 30, fromDay, toDay))
  {
    SteadyDisjoint(z, OFFICE_HOURS, 30, fromDay, toDay, 60 * MS_PER_MINUTE);
  }

  // ---------- the order of the dates ----------

  /** The slot starts at a wall-clock time between `lo` and `hi`. */
  ghost predicate StartsAt(z: TimeZone, x: Interval, lo: int, hi: int) {
    exists local :: lo <= local <= hi && Resolve(z, local) == x.start
  }

  ghost predicate AllStartAt(z: TimeZone, s: seq<Interval>, lo: int, hi: int) {
    forall i | 0 <= i < |s| :: StartsAt(z, s[i], lo, hi)
  }

  lemma {:induction false} DayStarts(z: TimeZone, day: int, from: int, until: int, m: nat)
    requires m > 0 && until <= 1440
    ensures AllStartAt(z, DaySlots(z, day, from, until, m), Local(day, from), Local(day, LastPoint(from, until, m)))
    decreases until - from
  {
    if from + m == 1440 && m == 60 {
      assert DaySlots(z, day, 1440, until, m) == [];
    } else if from + m <= until {
      DayStarts(z, day, from + m, until, m);
      var rest, hi := DaySlots(z, day, from + m, until, m), Local(day, LastPoint(from, until, m));
      forall i | 0 <= i < |rest| ensures StartsAt(z, rest[i], Local(day, from), hi) {
        assert StartsAt(z, rest[i], Local(day, from + m), hi);
      }
      assert Resolve(z, Local(day, from)) == At(z, day, from);
    }
  }

  /** The last grid point of the rule's window on a date. */
  function LastLocal(r: Rules, m: nat, day: int): int
    requires m > 0
  {
    Local(day, LastPoint(WindowStart(r), WindowEnd(r), m))
  }

  lemma {:induction false} RangeStarts(z: TimeZone, r: Rules, m: nat, fromDay: int, toDay: int)
    requires m > 0 && WindowEnd(r) <= 1440
    ensures AllStartAt(z, RangeSlots(z, r, m, fromDay, toDay), Local(fromDay, WindowStart(r)), LastLocal(r, m, toDay))
    decreases toDay - fromDay
  {
    if fromDay <= toDay {
      var lo, hi := Local(fromDay, WindowStart(r)), LastLocal(r, m, toDay);
      RangeStarts(z, r, m, fromDay, toDay - 1);
      DayStarts(z, toDay, WindowStart(r), WindowEnd(r), m);
      var before, last := RangeSlots(z, r, m, fromDay, toDay - 1), DatePart(z, r, m, toDay);
      forall i | 0 <= i < |before| ensures StartsAt(z, before[i], lo, hi) {
        assert StartsAt(z, before[i], lo, LastLocal(r, m, toDay - 1));
      }
      forall i | 0 <= i < |last| ensures StartsAt(z, last[i], lo, hi) {
        assert StartsAt(z, last[i], Local(toDay, WindowStart(r)), hi);
      }
    }
  }

  /** No element of `b` starts before one of `a`. */
  predicate Precedes(a: seq<Interval>, b: seq<Interval>) {
    forall i, k | 0 <= i < |a| && 0 <= k < |b| :: a[i].start <= b[k].start
  }

  /** Slots of earlier dates start before slots of later ones, even where slots of one date overlap. */
  lemma DatesInOrder(z: TimeZone, r: Rules, m: nat, j: nat, fromDay: int, mid: int, toDay: int)
    requires DatesApart(z, r, m, j)
    ensures Precedes(RangeSlots(z, r, m, fromDay, mid), RangeSlots(z, r, m, mid + 1, toDay))
  {
    var a, b := RangeSlots(z, r, m, fromDay, mid), RangeSlots(z, r, m, mid + 1, toDay);
    if !Yields(r, m) {
      RangeEmpty(z, r, m, fromDay, mid);
    } else {
      var start := WindowStart(r);
      RangeStarts(z, r, m, fromDay, mid);
      RangeStarts(z, r, m, mid + 1, toDay);
      forall i, k | 0 <= i < |a| && 0 <= k < |b| ensures a[i].start <= b[k].start {
        assert StartsAt(z, a[i], Local(fromDay, start), LastLocal(r, m, mid));
        assert StartsAt(z, b[k], Local(mid + 1, start), LastLocal(r, m, toDay));
        var l :| Local(fromDay, start) <= l <= LastLocal(r, m, mid) && Resolve(z, l) == a[i].start;
        var l' :| Local(mid + 1, start) <= l' <= LastLocal(r, m, toDay) && Resolve(z, l') == b[k].start;
        ResolveMonotone(z, l, l', j);
      }
    }
  }

  lemma {:induction false} InsertBehind(a: seq<Interval>, b: seq<Interval>, x: Interval)
    requires forall i | 0 <= i < |a| :: a[i].start <= x.start
    ensures Insert(a + b, x) == a + Insert(b, x)
  {
    if b == [] {
      assert a + b == a;
    } else if b[|b| - 1].start > x.start {
      assert (a + b)[..|a + b| - 1] == a + b[..|b| - 1];
      InsertBehind(a, b[..|b| - 1], x);
    }
  }

  lemma {:induction false} InsertAllBehind(a: seq<Interval>, b: seq<Interval>)
    requires Precedes(a, b)
    ensures InsertAll(a, b) == a + SortByStart(b)
  {
    if b != [] {
      InsertAllBehind(a, b[..|b| - 1]);
      InsertBehind(a, SortByStart(b[..|b| - 1]), b[|b| - 1]);
    }
  }

  lemma SortKeepsPrecedes(a: seq<Interval>, b: seq<Interval>)
    requires Precedes(a, b)
    ensures Precedes(SortByStart(a), b)
  {
    InsertAllSorts([], a);
    var s := SortByStart(a);
    forall i, k | 0 <= i < |s| && 0 <= k < |b| ensures s[i].start <= b[k].start {
      assert s[i] in multiset(s);
      assert s[i] in multiset(a);
    }
  }

  /** So a range generates its first part followed by its second, with no merging. */
  lemma GenerateConcat(z: TimeZone, r: Rules, m: nat, j: nat, fromDay: int, mid: int, next: int, toDay: int)
    requires DatesApart(z, r, m, j) && fromDay <= next && mid <= toDay && next == mid + 1
    ensures Generate(z, r, m, fromDay, toDay) == Generate(z, r, m, fromDay, mid) + Generate(z, r, m, next, toDay)
  {
    var a, b := RangeSlots(z, r, m, fromDay, mid), RangeSlots(z, r, m, next, toDay);
    RangeSplits(z, r, m, fromDay, mid, toDay);
    InsertAllConcat([], a, b);
    DatesInOrder(z, r, m, j, fromDay, mid, toDay);
    SortKeepsPrecedes(a, b);
    InsertAllBehind(SortByStart(a), b);
  }

  // ---------- tiling ----------

  /** Where nothing is skipped, the first slot runs between the first two grid points. */
  lemma FirstTile(z: TimeZone, day: int, from: int, until: int, m: nat)
    requires m > 0 && from + m <= until < 1440 && Valid(z) && GapFree(z, Local(day, from), Local(day, until))
    ensures DaySlots(z, day, from, until, m) ==
            [Interval(At(z, day, from), At(z, day, from + m))] + DaySlots(z, day, from + m, until, m)
    ensures GapFree(z, Local(day, from + m), Local(day, until))
  {
    assert GapFree(z, Local(day, from), Local(day, from + m));
    ResolveIncreasing(z, Local(day, from), Local(day, from + m));
  }

  lemma OneMore(n: nat, m: nat)
    ensures (n + 1) * m == n * m + m
  {
  }

  lemma {:induction false} DayCount(z: TimeZone, day: int, from: int, until: int, m: nat)
    requires m > 0 && from <= until < 1440 && Valid(z) && GapFree(z, Local(day, from), Local(day, until))
    ensures var n := |DaySlots(z, day, from, until, m)|; n * m <= until - from < n * m + m
    decreases until - from
  {
    if from + m <= until {
      var rest := DaySlots(z, day, from + m, until, m);
      FirstTile(z, day, from, until, m);
      DayCount(z, day, from + m, until, m);
      OneMore(|rest|, m);
      assert |DaySlots(z, day, from, until, m)| == |rest| + 1;
    } else {
      assert DaySlots(z, day, from, until, m) == [];
    }
  }

  lemma {:induction false} DayTile(z: TimeZone, day: int, from: int, until: int, m: nat, k: nat)
    requires m > 0 && from <= until < 1440 && Valid(z) && GapFree(z, Local(day, from), Local(day, until))
    requires k < |DaySlots(z, day, from, until, m)|
    ensures DaySlots(z, day, from, until, m)[k] ==
            Interval(At(z, day, from + k * m), At(z, day, from + (k * m + m)))
    decreases k
  {
    FirstTile(z, day, from, until, m);
    if k > 0 {
      DayTile(z, day, from + m, until, m, k - 1);
      assert m + (k - 1) * m == k * m;
    }
  }

  /** On a date without a skipped time in its window, the `k`-th slot runs between the
      `k`-th and next grid points: the slots abut, none is dropped, and they number
      as many as the window holds. */
  lemma DayTiles(z: TimeZone, day: int, from: int, until: int, m: nat)
    requires m > 0 && from <= until < 1440 && Valid(z) && GapFree(z, Local(day, from), Local(day, until))
    ensures var s := DaySlots(z, day, from, until, m);
            |s| * m <= until - from < |s| * m + m &&
            forall k | 0 <= k < |s| ::
              s[k] == Interval(At(z, day, from + k * m), At(z, day, from + (k * m + m)))
  {
    DayCount(z, day, from, until, m);
    forall k | 0 <= k < |DaySlots(z, day, from, until, m)|
      ensures DaySlots(z, day, from, until, m)[k] ==
              Interval(At(z, day, from + k * m), At(z, day, from + (k * m + m)))
    {
      DayTile(z, day, from, until, m, k);
    }
  }

  /** The slot that would end at midnight ends at 23:00 instead. */
  function CutOff(z: TimeZone, day: int, m: nat): seq<Interval> {
    if m > 60 then [Interval(At(z, day, 1440 - m), At(z, day, 1380))] else []
  }

  lemma LastCut(z: TimeZone, day: int, m: nat)
    requires 0 < m && Valid(z)
    requires GapFree(z, Local(day, if m > 60 then 1440 - m else 1380), Local(day, 1440))
    ensures DaySlots(z, day, 1440 - m, 1440, m) == CutOff(z, day, m)
  {
    assert DaySlots(z, day, 1440, 1440, m) == [];
    if m > 60 {
      ResolveIncreasing(z, Local(day, 1440 - m), Local(day, 1380));
    } else if m < 60 {
      ResolveIncreasing(z, Local(day, 1380), Local(day, 1440 - m));
    }
  }

  /** A window that ends at 24:00 has the slots of one that ends a minute earlier and, when a slot would
      end at midnight, that slot cut off at 23:00: with slots of an hour or less nothing is left of it. */
  lemma {:induction false} MidnightCutsLast(z: TimeZone, day: int, from: int, m: nat)
    requires 0 < m && from <= 1440 && Valid(z)
    requires GapFree(z, Local(day, if from < 1380 then from else 1380), Local(day, 1440))
    ensures DaySlots(z, day, from, 1440, m) ==
            DaySlots(z, day, from, 1439, m) + if OnGrid(from, m) then CutOff(z, day, m) else []
    decreases 1440 - from
  {
    if from + m < 1440 {
      MidnightCutsLast(z, day, from + m, m);
    } else if from + m == 1440 {
      LastCut(z, day, m);
    }
  }

  /** Midnight is a later point of the grid that starts at `from`. */
  predicate OnGrid(from: int, m: nat)
    requires m > 0
    decreases 1440 - from
  {
    from + m == 1440 || (from + m < 1440 && OnGrid(from + m, m))
  }

  /** Where nothing is skipped, a slot lasts its nominal length plus exactly the clock time
      repeated inside it, which is never negative. */
  lemma SlotLength(z: TimeZone, day: int, minute: int, m: nat)
    requires Valid(z) && minute + m < 1440 && GapFree(z, Local(day, minute), Local(day, minute + m))
    ensures At(z, day, minute + m) - At(z, day, minute) ==
            m * MS_PER_MINUTE + Repeated(z, At(z, day, minute), At(z, day, minute + m))
  {
    ElapsedRepeats(z, Local(day, minute), Local(day, minute + m));
  }

  // ---------- the loops ----------

  lemma AddDate(z: TimeZone, r: Rules, m: nat, fromDay: int, done: int, d: int)
    requires m > 0 && fromDay <= d && done == d - 1
    ensures RangeSlots(z, r, m, fromDay, d) ==
            RangeSlots(z, r, m, fromDay, done) +
            if Selected(r, d) then DaySlots(z, d, WindowStart(r), WindowEnd(r), m) else []
  {
  }

  /** `generateSlots`.  With `fromDay` after `toDay` the program's date loop never meets its end test. */
  method GenerateSlots(z: TimeZone, r: Rules, m: int, fromDay: int, toDay: int) returns (outcome: Outcome)
    requires fromDay <= toDay
    ensures outcome == if m < 5 || m > 240 then OutOfRange else Generated(Generate(z, r, m, fromDay, toDay))
  {
    if m < 5 || m > 240 {
      return OutOfRange;
    }
    var slots: seq<Interval> := [];
    var d := fromDay;
    ghost var done := fromDay - 1;
    while true
      invariant fromDay <= d <= toDay && done == d - 1
      invariant slots == RangeSlots(z, r, m, fromDay, done)
      decreases toDay - d
    {
      AddDate(z, r, m, fromDay, done, d);
      if Selected(r, d) {
        slots := PushDay(z, d, WindowStart(r), WindowEnd(r), m, slots);
      } else {
        assert slots + [] == slots;
      }
      done := d;
      if d == toDay {
        break;
      }
      d := d + 1;
    }
    outcome := Generated(SortByStart(slots));
  }

  /** The loop over one date's local minutes. */
  method PushDay(z: TimeZone, day: int, startMin: int, endMin: int, m: nat, before: seq<Interval>)
      returns (slots: seq<Interval>)
    requires m > 0
    ensures slots == before + DaySlots(z, day, startMin, endMin, m)
  {
    slots := before;
    var currentMin := startMin;
    while currentMin < endMin
      invariant slots + DaySlots(z, day, currentMin, endMin, m) == before + DaySlots(z, day, startMin, endMin, m)
      decreases endMin - currentMin
    {
      var nextMin := currentMin + m;
      if nextMin > endMin {
        break;
      }
      var start, end := At(z, day, currentMin), At(z, day, nextMin);
      ghost var rest := DaySlots(z, day, nextMin, endMin, m);
      FirstSlot(z, day, currentMin, endMin, m, rest);
      assert slots + (Kept(start, end) + rest) == (slots + Kept(start, end)) + rest;
      if start < end {
        slots := slots + [Interval(start, end)];
      } else {
        assert slots + [] == slots;
      }
      currentMin := nextMin;
    }
    assert slots + [] == slots;
  }
}
