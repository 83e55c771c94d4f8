/** Time zones as sorted lists of offset changes, and the "compatible" reading of a
    wall-clock time: the rule of section 3.3.5 of RFC 5545. */
module Zone {
  import opened Tables

  /** From instant `at` on, local time is UTC plus `after`. */
  datatype Transition = Transition(at: int, after: int)

  datatype TimeZone = TimeZone(before: int, steps: seq<Transition>)

  function Abs(x: int): nat {
    if x < 0 then -x else x
  }

  /** The zone from its first transition on. */
  function Rest(z: TimeZone): TimeZone
    requires z.steps != []
  {
    TimeZone(z.steps[0].after, z.steps[1..])
  }

  /** How far the clock jumps at the first transition: forward (a gap) if positive, back (a fold) if negative. */
  function Jump(z: TimeZone): int
    requires z.steps != []
  {
    z.steps[0].after - z.before
  }

  /** Successive transitions are at least as far apart as their two jumps together, as in every real zone. */
  predicate Valid(z: TimeZone)
    decreases |z.steps|
  {
    |z.steps| >= 2 ==>
      z.steps[0].at < z.steps[1].at &&
      z.steps[1].at - z.steps[0].at >= Abs(Jump(z)) + Abs(Jump(Rest(z))) &&
      Valid(Rest(z))
  }

  predicate JumpsAtMost(z: TimeZone, j: nat)
    decreases |z.steps|
  {
    z.steps != [] ==> Jump(z) <= j && JumpsAtMost(Rest(z), j)
  }

  function Offset(z: TimeZone, instant: int): int
    decreases |z.steps|
  {
    if z.steps == [] || instant < z.steps[0].at then z.before else Offset(Rest(z), instant)
  }

  /** The wall clock at an instant. */
  function Clock(z: TimeZone, instant: int): int {
    instant + Offset(z, instant)
  }

  /** The instant the compatible policy picks for a wall-clock time. */
  function Resolve(z: TimeZone, local: int): int
    decreases |z.steps|
  {
    if z.steps == [] || local < z.steps[0].at + Max(z.before, z.steps[0].after) then local - z.before
    else Resolve(Rest(z), local)
  }

  /** `local` is a wall-clock time the zone skips. */
  predicate InGap(z: TimeZone, local: int)
    decreases |z.steps|
  {
    z.steps != [] &&
    (z.steps[0].at + z.before <= local < z.steps[0].at + z.steps[0].after || InGap(Rest(z), local))
  }

  /** The offset in force before the gap that skips `local`. */
  function OffsetBeforeGap(z: TimeZone, local: int): int
    requires InGap(z, local)
    decreases |z.steps|
  {
    if z.steps[0].at + z.before <= local < z.steps[0].at + z.steps[0].after then z.before
    else OffsetBeforeGap(Rest(z), local)
  }

  /** A wall-clock time not before `t` on the clock in force resolves to an instant not before `t`. */
  lemma {:induction false} ResolveAtLeast(z: TimeZone, local: int, t: int)
    requires Valid(z) && local - z.before >= t && (z.steps != [] ==> t <= z.steps[0].at)
    ensures Resolve(z, local) >= t
    decreases |z.steps|
  {
    if z.steps != [] && local >= z.steps[0].at + Max(z.before, z.steps[0].after) {
      ResolveAtLeast(Rest(z), local, z.steps[0].at);
    }
  }

  /** From `t` on, up to a jump before the first transition, the clock never shows less than at `t`. */
  lemma {:induction false} ClockFloor(z: TimeZone, u: int, t: int)
    requires Valid(z) && u >= t && (z.steps != [] ==> t + Abs(Jump(z)) <= z.steps[0].at)
    ensures Clock(z, u) >= t + z.before
    decreases |z.steps|
  {
    if z.steps != [] && u >= z.steps[0].at {
      ClockFloor(Rest(z), u, z.steps[0].at);
    }
  }

  lemma {:induction false} GapFloor(z: TimeZone, local: int, t: int)
    requires Valid(z) && InGap(z, local) && (z.steps != [] ==> t + Abs(Jump(z)) <= z.steps[0].at)
    ensures local >= t + z.before
    decreases |z.steps|
  {
    if InGap(Rest(z), local) {
      GapFloor(Rest(z), local, z.steps[0].at);
    }
  }

  /** A skipped wall-clock time is shown at no instant and is read with the offset before the gap. */
  lemma {:induction false} GapUsesOffsetBefore(z: TimeZone, local: int, u: int)
    requires Valid(z) && InGap(z, local)
    ensures Clock(z, u) != local
    ensures Resolve(z, local) == local - OffsetBeforeGap(z, local)
    decreases |z.steps|
  {
    var at := z.steps[0].at;
    if at + z.before <= local < at + z.steps[0].after {
      if u >= at {
        ClockFloor(Rest(z), u, at);
      }
    } else {
      GapFloor(Rest(z), local, at + Abs(Jump(z)));
      GapUsesOffsetBefore(Rest(z), local, u);
    }
  }

  /** A wall-clock time that is not skipped resolves to an instant showing it, the first one if there are several. */
  lemma {:induction false} RealUsesFirstOccurrence(z: TimeZone, local: int, u: int)
    requires Valid(z) && !InGap(z, local)
    ensures Clock(z, Resolve(z, local)) == local
    ensures Clock(z, u) == local ==> Resolve(z, local) <= u
    decreases |z.steps|
  {
    if z.steps != [] && local >= z.steps[0].at + Max(z.before, z.steps[0].after) {
      ResolveAtLeast(Rest(z), local, z.steps[0].at);
      RealUsesFirstOccurrence(Rest(z), local, u);
    }
  }

  /** Resolution is not monotone across a gap, but it is for wall-clock times at least
      the zone's largest forward jump apart. */
  lemma {:induction false} ResolveMonotone(z: TimeZone, l: int, l': int, j: nat)
    requires Valid(z) && JumpsAtMost(z, j) && l + j <= l'
    ensures Resolve(z, l) <= Resolve(z, l')
    decreases |z.steps|
  {
    if z.steps != [] {
      var first, turn := z.steps[0], z.steps[0].at + Max(z.before, z.steps[0].after);
      if turn <= l {
        ResolveMonotone(Rest(z), l, l', j);
      } else if turn <= l' {
        ResolveAtLeast(Rest(z), l', Max(first.at, l - z.before));
      }
    }
  }

  /** No wall-clock time from `lo` to `hi` is skipped. */
  ghost predicate GapFree(z: TimeZone, lo: int, hi: int) {
    forall local | lo <= local <= hi :: !InGap(z, local)
  }

  /** Where nothing is skipped, resolution is strictly increasing. */
  lemma {:induction false} ResolveIncreasing(z: TimeZone, l: int, l': int)
    requires Valid(z) && GapFree(z, l, l') && l < l'
    ensures Resolve(z, l) < Resolve(z, l')
    decreases |z.steps|
  {
    if z.steps != [] {
      var turn := z.steps[0].at + Max(z.before, z.steps[0].after);
      if turn <= l {
        forall local | l <= local <= l' ensures !InGap(Rest(z), local) {
          assert !InGap(z, local);
        }
        ResolveIncreasing(Rest(z), l, l');
      } else if turn <= l' {
        if l - z.before >= z.steps[0].at {
          assert InGap(z, l);
        }
        ResolveAtLeast(Rest(z), l', z.steps[0].at);
      }
    }
  }

  /** The clock time repeated between two instants: the sum of the folds passed on the way. */
  function Repeated(z: TimeZone, u: int, u': int): nat
    decreases |z.steps|
  {
    if z.steps == [] then 0
    else (if u < z.steps[0].at <= u' && Jump(z) < 0 then -Jump(z) else 0) + Repeated(Rest(z), u, u')
  }

  /** Every transition passed between two instants sets the clock back. */
  predicate OnlyFolds(z: TimeZone, u: int, u': int)
    decreases |z.steps|
  {
    z.steps != [] ==> (u < z.steps[0].at <= u' ==> Jump(z) <= 0) && OnlyFolds(Rest(z), u, u')
  }

  lemma {:induction false} NothingPassed(z: TimeZone, u: int, u': int)
    requires Valid(z) && (z.steps != [] ==> u' < z.steps[0].at)
    ensures Repeated(z, u, u') == 0 && OnlyFolds(z, u, u')
    decreases |z.steps|
  {
    if z.steps != [] {
      NothingPassed(Rest(z), u, u');
    }
  }

  /** The offset falls by exactly the clock time repeated. */
  lemma {:induction false} OffsetFalls(z: TimeZone, u: int, u': int)
    requires Valid(z) && u <= u' && OnlyFolds(z, u, u')
    ensures Offset(z, u) - Offset(z, u') == Repeated(z, u, u')
    decreases |z.steps|
  {
    if z.steps != [] {
      if u' < z.steps[0].at {
        NothingPassed(z, u, u');
      } else {
        OffsetFalls(Rest(z), u, u');
      }
    }
  }

  /** A forward jump passed between two instants skips a wall-clock time between their clocks. */
  lemma {:induction false} JumpSkips(z: TimeZone, u: int, u': int) returns (local: int)
    requires Valid(z) && u <= u' && !OnlyFolds(z, u, u')
    ensures InGap(z, local) && Clock(z, u) <= local <= Clock(z, u')
    decreases |z.steps|
  {
    var first := z.steps[0];
    if u' < first.at {
      NothingPassed(z, u, u');
      assert false;
    } else if u < first.at && Jump(z) > 0 {
      local := first.at + z.before;
      ClockFloor(Rest(z), u', first.at);
    } else {
      local := JumpSkips(Rest(z), u, u');
      if u < first.at {
        GapFloor(Rest(z), local, first.at + Abs(Jump(z)));
      }
    }
  }

  /** Between two wall-clock times with nothing skipped from one to the other, elapsed time is
      clock time plus exactly what is repeated on the way. */
  lemma ElapsedRepeats(z: TimeZone, l: int, l': int)
    requires Valid(z) && l <= l' && GapFree(z, l, l')
    ensures Resolve(z, l') - Resolve(z, l) == (l' - l) + Repeated(z, Resolve(z, l), Resolve(z, l'))
  {
    assert !InGap(z, l) && !InGap(z, l');
    RealUsesFirstOccurrence(z, l, l);
    RealUsesFirstOccurrence(z, l', l');
    if l < l' {
      ResolveIncreasing(z, l, l');
    }
    if !OnlyFolds(z, Resolve(z, l), Resolve(z, l')) {
      var _ := JumpSkips(z, Resolve(z, l), Resolve(z, l'));
      assert false;
    }
    OffsetFalls(z, Resolve(z, l), Resolve(z, l'));
  }
}
