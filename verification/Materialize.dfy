/** Storing generated slots: the insert loop that skips conflicts, and the batch
    insert that fails as a whole when a slot overlaps a stored one. */
module Materialize {
  import opened Tables
  import Zone
  import opened SlotGeneration

  /** The rows of the slots table, without their ids. */
  type SlotRows = set<Slot>

  function Row(provider: Uuid, x: Interval): Slot {
    Slot(provider, x.start, x.end, SlotOpen)
  }

  /** The exclusion constraint on `[start, end)` ranges of one provider. */
  predicate Overlaps(a: Slot, b: Slot) {
    a.provider == b.provider && a.start < b.end && b.start < a.end
  }

  /** The unique index on (provider, start). */
  predicate SameStart(a: Slot, b: Slot) {
    a.provider == b.provider && a.start == b.start
  }

  predicate Conflicts(a: Slot, b: Slot) {
    Overlaps(a, b) || SameStart(a, b)
  }

  ghost predicate NonOverlapping(t: SlotRows) {
    forall a, b | a in t && b in t && a != b :: !Conflicts(a, b)
  }

  /** `INSERT ... ON CONFLICT DO NOTHING`. */
  function InsertOne(t: SlotRows, row: Slot): SlotRows {
    if exists r | r in t :: Conflicts(r, row) then t else t + {row}
  }

  function InsertEach(t: SlotRows, provider: Uuid, xs: seq<Interval>): SlotRows {
    if xs == [] then t
    else InsertOne(InsertEach(t, provider, xs[..|xs| - 1]), Row(provider, xs[|xs| - 1]))
  }

  /** Stored slots stay non-overlapping whatever is generated, and every row already
      stored, booked ones included, stays exactly as it is. */
  lemma {:induction false} InsertEachSafe(t: SlotRows, provider: Uuid, xs: seq<Interval>)
    requires NonOverlapping(t)
    ensures NonOverlapping(InsertEach(t, provider, xs))
    ensures t <= InsertEach(t, provider, xs)
    ensures forall r | r in InsertEach(t, provider, xs) - t :: r.provider == provider && r.status == SlotOpen
  {
    if xs != [] {
      InsertEachSafe(t, provider, xs[..|xs| - 1]);
    }
  }

  /** A row a materializer adds: of the provider, open, and starting and ending as a generated slot does. */
  predicate StoresSlot(row: Slot, provider: Uuid, xs: set<Interval>) {
    row.provider == provider && row.status == SlotOpen && Interval(row.start, row.end) in xs
  }

  lemma {:induction false} InsertEachStoresSlots(t: SlotRows, provider: Uuid, xs: seq<Interval>, row: Slot)
    requires row in InsertEach(t, provider, xs) && row !in t
    ensures StoresSlot(row, provider, set x | x in xs)
  {
    var rest, x := xs[..|xs| - 1], xs[|xs| - 1];
    if row in InsertEach(t, provider, rest) {
      InsertEachStoresSlots(t, provider, rest, row);
    } else {
      assert x in xs;
    }
  }

  /** The end of a row is not part of it. */
  predicate Covers(row: Slot, instant: int) {
    row.start <= instant < row.end
  }

  /** Two rows overlap when they are of one provider and share an instant. */
  lemma OverlapsExactly(a: Slot, b: Slot)
    requires a.start < a.end && b.start < b.end
    ensures Overlaps(a, b) <==> a.provider == b.provider && exists i :: Covers(a, i) && Covers(b, i)
  {
    if Overlaps(a, b) {
      var i := if a.start < b.start then b.start else a.start;
      assert Covers(a, i) && Covers(b, i);
    }
  }

  /** A generated slot is stored exactly when no row of its provider shares an instant or the start with it. */
  lemma InsertOneExactly(t: SlotRows, row: Slot)
    requires row.start < row.end && forall r | r in t :: r.start < r.end
    ensures row in InsertOne(t, row) <==>
            row in t || forall r | r in t && r.provider == row.provider ::
              r.start != row.start && (r.end <= row.start || row.end <= r.start)
    ensures t <= InsertOne(t, row) <= t + {row}
  {
  }

  /** The row is stored, or something stored stands in its way. */
  predicate Absorbed(t: SlotRows, row: Slot) {
    exists r | r in t :: r == row || Conflicts(r, row)
  }

  lemma {:induction false} InsertEachGrows(t: SlotRows, provider: Uuid, xs: seq<Interval>)
    ensures t <= InsertEach(t, provider, xs)
  {
    if xs != [] {
      InsertEachGrows(t, provider, xs[..|xs| - 1]);
    }
  }

  /** Maximality: every generated slot is stored or overlaps (or starts with) a stored one. */
  lemma {:induction false} InsertEachMaximal(t: SlotRows, provider: Uuid, xs: seq<Interval>, i: nat)
    requires i < |xs|
    ensures Absorbed(InsertEach(t, provider, xs), Row(provider, xs[i]))
  {
    if i < |xs| - 1 {
      InsertEachMaximal(t, provider, xs[..|xs| - 1], i);
    }
  }

  /** Slots that are absorbed already change nothing. */
  lemma {:induction false} AbsorbedChangesNothing(t: SlotRows, provider: Uuid, xs: seq<Interval>)
    requires forall i | 0 <= i < |xs| :: Absorbed(t, Row(provider, xs[i]))
    ensures InsertEach(t, provider, xs) == t
  {
    if xs != [] {
      AbsorbedChangesNothing(t, provider, xs[..|xs| - 1]);
      var row := Row(provider, xs[|xs| - 1]);
      assert Absorbed(t, row);
      assert SameStart(row, row);
    }
  }

  /** Materializing the same slots again changes nothing. */
  lemma InsertEachIdempotent(t: SlotRows, provider: Uuid, xs: seq<Interval>)
    ensures InsertEach(InsertEach(t, provider, xs), provider, xs) == InsertEach(t, provider, xs)
  {
    forall i | 0 <= i < |xs| ensures Absorbed(InsertEach(t, provider, xs), Row(provider, xs[i])) {
      InsertEachMaximal(t, provider, xs, i);
    }
    AbsorbedChangesNothing(InsertEach(t, provider, xs), provider, xs);
  }

  lemma {:induction false} InsertEachConcat(t: SlotRows, provider: Uuid, xs: seq<Interval>, ys: seq<Interval>)
    ensures InsertEach(t, provider, xs + ys) == InsertEach(InsertEach(t, provider, xs), provider, ys)
  {
    if ys == [] {
      assert xs + ys == xs;
    } else {
      InsertEachConcat(t, provider, xs, ys[..|ys| - 1]);
      assert (xs + ys)[..|xs + ys| - 1] == xs + ys[..|ys| - 1];
    }
  }

  // ---------- the rolling window ----------

  /** One run over a range of dates. */
  function MaterializeRange(t: SlotRows, provider: Uuid, z: Zone.TimeZone, r: Rules, m: nat, fromDay: int,
                            toDay: int): SlotRows
    requires m > 0
  {
    InsertEach(t, provider, Generate(z, r, m, fromDay, toDay))
  }

  /** A materialization over the dates from its first to its second day. */
  type Materializer = (SlotRows, int, int) -> SlotRows

  /** Runs on `n + 1` successive days, each over the `horizon` days ahead. */
  function Rolled(run: Materializer, t: SlotRows, fromDay: int, horizon: nat, n: nat): SlotRows {
    if n == 0 then run(t, fromDay, fromDay + horizon)
    else run(Rolled(run, t, fromDay, horizon, n - 1), fromDay + n, fromDay + n + horizon)
  }

  /** Running again from a later day to one day more is as good as having run that far at once. */
  ghost predicate Extends(run: Materializer, t: SlotRows, fromDay: int, toDay: int) {
    forall b, c, d | fromDay <= b <= c <= toDay && d == c - 1 :: run(run(t, fromDay, d), b, c) == run(t, fromDay, c)
  }

  lemma {:induction false} RolledIsOneRun(run: Materializer, t: SlotRows, fromDay: int, horizon: nat, n: nat)
    requires Extends(run, t, fromDay, fromDay + n + horizon)
    ensures Rolled(run, t, fromDay, horizon, n) == run(t, fromDay, fromDay + n + horizon)
  {
    if n > 0 {
      RolledIsOneRun(run, t, fromDay, horizon, n - 1);
      var toDay := fromDay + n + horizon;
      assert run(run(t, fromDay, toDay - 1), fromDay + n, toDay) == run(t, fromDay, toDay);
    }
  }

  lemma ReinsertTail(t: SlotRows, provider: Uuid, early: seq<Interval>, seen: seq<Interval>, last: seq<Interval>)
    ensures InsertEach(InsertEach(t, provider, early + seen), provider, seen + last) ==
            InsertEach(t, provider, (early + seen) + last)
  {
    var t1 := InsertEach(t, provider, early + seen);
    forall i | 0 <= i < |seen| ensures Absorbed(t1, Row(provider, seen[i])) {
      InsertEachMaximal(t, provider, early + seen, |early| + i);
    }
    AbsorbedChangesNothing(t1, provider, seen);
    InsertEachConcat(t1, provider, seen, last);
    InsertEachConcat(t, provider, early + seen, last);
  }

  lemma RunOf(t: SlotRows, provider: Uuid, z: Zone.TimeZone, r: Rules, m: nat, fromDay: int, toDay: int,
              xs: seq<Interval>)
    requires m > 0 && Generate(z, r, m, fromDay, toDay) == xs
    ensures MaterializeRange(t, provider, z, r, m, fromDay, toDay) == InsertEach(t, provider, xs)
  {
  }

  lemma GenerateParts(z: Zone.TimeZone, r: Rules, m: nat, j: nat, a: int, before: int, b: int, d: int, c: int)
    requires DatesApart(z, r, m, j) && a <= b <= c && before == b - 1 && d == c - 1
    ensures var early, seen, last := Generate(z, r, m, a, before), Generate(z, r, m, b, d), Generate(z, r, m, c, c);
            Generate(z, r, m, a, d) == early + seen && Generate(z, r, m, a, c) == (early + seen) + last &&
            Generate(z, r, m, b, c) == seen + last
  {
    GenerateConcat(z, r, m, j, a, before, b, d);
    GenerateConcat(z, r, m, j, a, d, c, c);
    GenerateConcat(z, r, m, j, b, d, c, c);
  }

  /** Re-running a later part of a range together with one more day adds just that day. */
  lemma ExtendRun(t: SlotRows, provider: Uuid, z: Zone.TimeZone, r: Rules, m: nat, j: nat, a: int, b: int, c: int,
                  d: int)
    requires DatesApart(z, r, m, j) && a <= b <= c && d == c - 1
    ensures MaterializeRange(MaterializeRange(t, provider, z, r, m, a, d), provider, z, r, m, b, c) ==
            MaterializeRange(t, provider, z, r, m, a, c)
  {
    var before := b - 1;
    var early, seen, last := Generate(z, r, m, a, before), Generate(z, r, m, b, d), Generate(z, r, m, c, c);
    var t1 := MaterializeRange(t, provider, z, r, m, a, d);
    GenerateParts(z, r, m, j, a, before, b, d, c);
    RunOf(t, provider, z, r, m, a, d, early + seen);
    RunOf(t, provider, z, r, m, a, c, (early + seen) + last);
    RunOf(t1, provider, z, r, m, b, c, seen + last);
    ReinsertTail(t, provider, early, seen, last);
  }

  /** The materializer of one provider. */
  function For(provider: Uuid, z: Zone.TimeZone, r: Rules, m: nat): Materializer
    requires m > 0
  {
    (t, a, b) => MaterializeRange(t, provider, z, r, m, a, b)
  }

  lemma ForStep(t: SlotRows, provider: Uuid, z: Zone.TimeZone, r: Rules, m: nat, j: nat, a: int, b: int, c: int, d: int)
    requires DatesApart(z, r, m, j) && a <= b <= c && d == c - 1
    ensures For(provider, z, r, m)(For(provider, z, r, m)(t, a, d), b, c) == For(provider, z, r, m)(t, a, c)
  {
    ExtendRun(t, provider, z, r, m, j, a, b, c, d);
  }

  lemma ForExtends(t: SlotRows, provider: Uuid, z: Zone.TimeZone, r: Rules, m: nat, j: nat, fromDay: int, toDay: int)
    requires DatesApart(z, r, m, j)
    ensures Extends(For(provider, z, r, m), t, fromDay, toDay)
  {
    var run := For(provider, z, r, m);
    forall b, c, d | fromDay <= b <= c <= toDay && d == c - 1
        ensures run(run(t, fromDay, d), b, c) == run(t, fromDay, c) {
      ForStep(t, provider, z, r, m, j, fromDay, b, c, d);
    }
  }

  /** Rolling the window day by day stores the same table as one run over the whole range. */
  lemma RollingEqualsOneRun(t: SlotRows, provider: Uuid, z: Zone.TimeZone, r: Rules, m: nat, j: nat,
                            fromDay: int, horizon: nat, n: nat)
    requires DatesApart(z, r, m, j)
    ensures Rolled(For(provider, z, r, m), t, fromDay, horizon, n) ==
            For(provider, z, r, m)(t, fromDay, fromDay + n + horizon)
  {
    ForExtends(t, provider, z, r, m, j, fromDay, fromDay + n + horizon);
    RolledIsOneRun(For(provider, z, r, m), t, fromDay, horizon, n);
  }

  /** So for the provider materializer's half-hour slots in office hours, in every zone with clock
      changes of up to an hour, even on dates where a change makes generated slots overlap. */
  lemma OfficeHoursRoll(t: SlotRows, provider: Uuid, z: Zone.TimeZone, fromDay: int, horizon: nat, n: nat)
    requires Zone.Valid(z) && Zone.JumpsAtMost(z, 60 * MS_PER_MINUTE)
    ensures Rolled(For(provider, z, OFFICE_HOURS, 30), t, fromDay, horizon, n) ==
            For(provider, z, OFFICE_HOURS, 30)(t, fromDay, fromDay + n + horizon)
  {
    RollingEqualsOneRun(t, provider, z, OFFICE_HOURS, 30, 60 * MS_PER_MINUTE, fromDay, horizon, n);
  }

  /** Every row the provider materializer adds is a half hour of some date between nine and five, local time. */
  lemma ProviderRows(t: SlotRows, provider: Uuid, z: Zone.TimeZone, fromDay: int, toDay: int, row: Slot)
    requires row in MaterializeRange(t, provider, z, OFFICE_HOURS, 30, fromDay, toDay) && row !in t
    ensures row.provider == provider && row.status == SlotOpen
    ensures exists day | fromDay <= day <= toDay ::
              OnGridOf(z, day, 540, 1020, 30, Interval(row.start, row.end))
  {
    var xs := Generate(z, OFFICE_HOURS, 30, fromDay, toDay);
    InsertEachStoresSlots(t, provider, xs, row);
    GeneratedExactly(z, OFFICE_HOURS, 30, fromDay, toDay, Interval(row.start, row.end));
    var day :| fromDay <= day <= toDay && SlotOfDate(z, OFFICE_HOURS, 30, day, Interval(row.start, row.end));
    assert OnGridOf(z, day, 540, 1020, 30, Interval(row.start, row.end));
  }

  /** The slots table as the materializers write it. */
  class SlotTable {
    var rows: SlotRows

    constructor (rows: SlotRows)
      ensures this.rows == rows
    {
      this.rows := rows;
    }

    /** The insert loop. */
    method InsertSlots(provider: Uuid, slots: seq<Interval>)
      modifies this
      ensures rows == InsertEach(old(rows), provider, slots)
    {
      var i := 0;
      while i < |slots|
        invariant 0 <= i <= |slots|
        invariant rows == InsertEach(old(rows), provider, slots[..i])
      {
        var row := Row(provider, slots[i]);
        assert slots[..i + 1][..i] == slots[..i];
        if !exists r | r in rows :: Conflicts(r, row) {
          rows := rows + {row};
        }
        i := i + 1;
      }
      assert slots[..i] == slots;
    }

    /** `materializeProvider`: half-hour slots from nine to five. */
    method MaterializeProvider(provider: Uuid, z: Zone.TimeZone, fromDay: int, toDay: int)
      requires fromDay <= toDay
      modifies this
      ensures rows == MaterializeRange(old(rows), provider, z, OFFICE_HOURS, 30, fromDay, toDay)
    {
      var outcome := GenerateSlots(z, OFFICE_HOURS, 30, fromDay, toDay);
      InsertSlots(provider, outcome.slots);
    }
  }
}
