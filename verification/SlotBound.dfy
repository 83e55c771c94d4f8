/** The slot length is exactly the forward jump up to which generated slots stay disjoint. */
module SlotBound {
  import opened Tables
  import opened Zone
  import opened SlotGeneration

  /** Every zone with jumps of at most `j`, and every daily window leaving room for such a jump, gives disjoint
      slots. */
  ghost predicate DisjointUpTo(m: nat, j: nat)
    requires m > 0
  {
    forall z, r, fromDay, toDay ::
      Valid(z) && JumpsAtMost(z, j) && ClockWindow(r) && WindowsApart(r, m, j) && fromDay <= toDay ==>
      Disjoint(Generate(z, r, m, fromDay, toDay))
  }

  /** A zone whose clock jumps from the midnight that begins day zero to a millisecond past the first slot's end. */
  function Skipping(m: nat): TimeZone {
    TimeZone(0, [Transition(0, m * MS_PER_MINUTE + 1)])
  }

  lemma SkippingResolves(m: nat, minute: int)
    requires minute < 1440
    ensures At(Skipping(m), 0, minute) ==
            minute * MS_PER_MINUTE - if minute > m then m * MS_PER_MINUTE + 1 else 0
  {
    var z := Skipping(m);
    assert Rest(z) == TimeZone(m * MS_PER_MINUTE + 1, []);
    var local := Local(0, minute);
    assert Resolve(Rest(z), local) == local - (m * MS_PER_MINUTE + 1);
    assert z.steps[0].at + Max(z.before, z.steps[0].after) == m * MS_PER_MINUTE + 1;
  }

  /** Three slots from midnight: the first and the third overlap by a millisecond, the second vanishes. */
  lemma SkippingSlots(m: nat)
    requires m > 0 && 3 * m < 1440
    ensures DaySlots(Skipping(m), 0, 0, 3 * m, m) ==
            [Interval(0, m * MS_PER_MINUTE), Interval(m * MS_PER_MINUTE - 1, 2 * m * MS_PER_MINUTE - 1)]
  {
    var z, until := Skipping(m), 3 * m;
    SkippingResolves(m, 0);
    SkippingResolves(m, m);
    SkippingResolves(m, 2 * m);
    SkippingResolves(m, until);
    assert DaySlots(z, 0, until, until, m) == [];
    assert DaySlots(z, 0, 2 * m, until, m) == Kept(At(z, 0, 2 * m), At(z, 0, until));
    assert DaySlots(z, 0, m, until, m) == Kept(At(z, 0, m), At(z, 0, 2 * m)) + DaySlots(z, 0, 2 * m, until, m);
  }

  lemma OverlapFound(s: seq<Interval>, a: Interval, b: Interval)
    requires a in s && b in s && a != b && a.start < b.end && b.start < a.end
    ensures !Disjoint(s)
  {
    var i :| 0 <= i < |s| && s[i] == a;
    var k :| 0 <= k < |s| && s[k] == b;
    assert i < k || k < i;
  }

  lemma SkippingOverlaps(m: nat)
    requires m > 0 && 3 * m < 1440
    ensures !Disjoint(Generate(Skipping(m), Rules(None, Some(0), Some(3 * m)), m, 0, 0))
  {
    var z, r := Skipping(m), Rules(None, Some(0), Some(3 * m));
    SkippingSlots(m);
    var day := DaySlots(z, 0, 0, 3 * m, m);
    assert RangeSlots(z, r, m, 0, -1) == [];
    assert RangeSlots(z, r, m, 0, 0) == [] + day;
    GenerateSorted(z, r, m, 0, 0);
    var s := Generate(z, r, m, 0, 0);
    assert day[0] in multiset(day) && day[1] in multiset(day);
    assert day[0] in multiset(s) && day[1] in multiset(s);
    OverlapFound(s, day[0], day[1]);
  }

  /** Generated slots are disjoint for every zone and window exactly when no forward jump exceeds the slot length. */
  lemma SlotLengthIsTheBound(m: nat, j: nat)
    requires m > 0 && 3 * m * MS_PER_MINUTE + j <= DAY
    ensures DisjointUpTo(m, j) <==> j <= m * MS_PER_MINUTE
  {
    if j <= m * MS_PER_MINUTE {
      forall z, r, fromDay, toDay |
        Valid(z) && JumpsAtMost(z, j) && ClockWindow(r) && WindowsApart(r, m, j) && fromDay <= toDay
        ensures Disjoint(Generate(z, r, m, fromDay, toDay))
      {
        GeneratedDisjoint(z, r, m, fromDay, toDay, j);
      }
    } else {
      var z, r := Skipping(m), Rules(None, Some(0), Some(3 * m));
      SkippingOverlaps(m);
      assert Valid(z) && JumpsAtMost(Rest(z), j);
      assert (WindowEnd(r) - WindowStart(r)) * MS_PER_MINUTE == 3 * m * MS_PER_MINUTE;
      assert JumpsAtMost(z, j) && ClockWindow(r) && WindowsApart(r, m, j);
    }
  }
}
