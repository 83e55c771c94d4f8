/** Idempotency keys: one booking per (client, key), faithful replays, no trace of losers. */
module Idempotency {
  import opened Tables
  import opened Requests
  import T = Transactions
  import Programs
  import Interleaving
  import UnlockedEndpoints

  /** Key rows are written once and never change. */
  lemma KeysStable(db: Db, c: Call, k: KeyId)
    requires c.WellFormed() && k in db.keys
    ensures k in Apply(db, c).0.keys && Apply(db, c).0.keys[k] == db.keys[k]
  {
  }

  lemma {:induction false} KeysStableOver(db: Db, calls: seq<Call>, k: KeyId)
    requires AllWellFormed(calls) && k in db.keys
    ensures k in Serial(db, calls).keys && Serial(db, calls).keys[k] == db.keys[k]
  {
    if calls != [] {
      KeysStableOver(db, calls[..|calls| - 1], k);
      KeysStable(Serial(db, calls[..|calls| - 1]), calls[|calls| - 1], k);
    }
  }

  /** Repeating a committed create under its key, at any later time and after any other
      requests, returns the same booking id and changes nothing. */
  lemma ReplayReturnsSameBooking(db: Db, c: Call, between: seq<Call>, again: Call)
    requires c.CreateCall? && c.WellFormed() && HasKey(c.create.createKey) && Create(db, c).1.Created?
    requires AllWellFormed(between) && again.CreateCall? && again.create == c.create
    ensures var later := Serial(Create(db, c).0, between);
            Create(later, again) == (later, Replayed(Create(db, c).1.id))
  {
    KeysStableOver(Create(db, c).0, between, CreateKeyId(c.create));
  }

  /** A different request under a key already used is refused and changes nothing. */
  lemma KeyReuseRefused(db: Db, c: Call, between: seq<Call>, other: Call)
    requires c.CreateCall? && c.WellFormed() && HasKey(c.create.createKey) && Create(db, c).1.Created?
    requires AllWellFormed(between) && other.CreateCall? && other.WellFormed() && other.create != c.create
    requires other.create.clientId == c.create.clientId && other.create.createKey == c.create.createKey
    ensures var later := Serial(Create(db, c).0, between);
            Create(later, other) == (later, Rejected(KeyReuse))
  {
    KeysStableOver(Create(db, c).0, between, CreateKeyId(c.create));
  }

  /** The call inserts a booking under `k`. */
  predicate CreatesUnder(db: Db, c: Call, k: KeyId)
    requires c.WellFormed()
  {
    Apply(db, c).1.Created? &&
    ((c.CreateCall? && HasKey(c.create.createKey) && k == KeyId(c.create.clientId, c.create.createKey.value)) ||
     (c.RescheduleCall? && HasKey(c.move.moveKey) && c.move.bookingId in db.bookings &&
      k == KeyId(db.bookings[c.move.bookingId].client, c.move.moveKey.value)))
  }

  lemma CreatesOnce(db: Db, c: Call, k: KeyId)
    requires c.WellFormed() && CreatesUnder(db, c, k)
    ensures k !in db.keys && k in Apply(db, c).0.keys && Apply(db, c).0.keys[k].bookingId == Apply(db, c).1.id
  {
  }

  /** No two requests of one history both create a booking under the same (client, key). */
  lemma OneBookingPerKey(db: Db, calls: seq<Call>, i: nat, j: nat, k: KeyId)
    requires AllWellFormed(calls) && i < j < |calls|
    requires CreatesUnder(Serial(db, calls[..i]), calls[i], k)
    ensures !CreatesUnder(Serial(db, calls[..j]), calls[j], k)
  {
    var upto := calls[..j];
    SerialSplit(db, upto, i + 1);
    assert upto[..i + 1] == calls[..i + 1];
    assert calls[..i + 1][..|calls[..i + 1]| - 1] == calls[..i];
    CreatesOnce(Serial(db, calls[..i]), calls[i], k);
    KeysStableOver(Serial(db, calls[..i + 1]), upto[i + 1..], k);
    if CreatesUnder(Serial(db, upto), calls[j], k) {
      CreatesOnce(Serial(db, upto), calls[j], k);
    }
  }

  /** The same over every interleaving: of all transactions that committed, at most one
      created a booking under a given (client, key). */
  lemma OneBookingPerKeyInterleaved(db: Db, actions: seq<Interleaving.Action>, i: nat, j: nat, k: KeyId)
    requires Interleaving.Run(T.Next, Interleaving.Initial(db), actions).Some?
    requires i < j < |Interleaving.Run(T.Next, Interleaving.Initial(db), actions).value.log|
    ensures var s := Interleaving.Run(T.Next, Interleaving.Initial(db), actions).value;
            AllWellFormed(s.log) &&
            !(CreatesUnder(Serial(db, s.log[..i]), s.log[i], k) && CreatesUnder(Serial(db, s.log[..j]), s.log[j], k))
  {
    Interleaving.Serialisable(db, actions);
    var s := Interleaving.Run(T.Next, Interleaving.Initial(db), actions).value;
    if CreatesUnder(Serial(db, s.log[..i]), s.log[i], k) {
      OneBookingPerKey(db, s.log, i, j, k);
    }
  }

  /** Once a keyed create has committed, every later pre-check under its key, in whatever interleaved state
      it is made, answers the same request with the booking id then given and refuses every other. */
  lemma PrecheckAfterCommit(db: Db, actions: seq<Interleaving.Action>, i: nat, r: RequestBody)
    requires Interleaving.Run(T.Next, Interleaving.Initial(db), actions).Some?
    requires var s := Interleaving.Run(T.Next, Interleaving.Initial(db), actions).value;
             i < |s.log| && i < |s.replies| && s.replies[i].Created? &&
             s.log[i].CreateCall? && s.log[i].WellFormed() && HasKey(s.log[i].create.createKey) &&
             r.CreateRequest? && HasKey(r.createKey) && CreateKeyId(r) == CreateKeyId(s.log[i].create)
    ensures var s := Interleaving.Run(T.Next, Interleaving.Initial(db), actions).value;
            CreatePrecheck(s.db, r) ==
            Some(if r == s.log[i].create then Replayed(s.replies[i].id) else Rejected(KeyReuse))
  {
    Interleaving.Serialisable(db, actions);
    var s := Interleaving.Run(T.Next, Interleaving.Initial(db), actions).value;
    var c, before := s.log[i], Serial(db, s.log[..i]);
    CreatesOnce(before, c, CreateKeyId(c.create));
    SerialSplit(db, s.log, i + 1);
    assert s.log[..i + 1][..|s.log[..i + 1]| - 1] == s.log[..i];
    KeysStableOver(Apply(before, c).0, s.log[i + 1..], CreateKeyId(c.create));
  }

  // ---------- losers ----------

  /** The reply of the `i`-th request of a history. */
  function ReplyAt(db: Db, calls: seq<Call>, i: nat): Reply
    requires AllWellFormed(calls) && i < |calls|
  {
    Apply(Serial(db, calls[..i]), calls[i]).1
  }

  lemma StepBookings(db: Db, c: Call)
    requires c.WellFormed()
    ensures var after, reply := Apply(db, c).0, Apply(db, c).1;
            after.bookings.Keys == db.bookings.Keys + (if reply.Created? then {reply.id} else {})
    ensures forall k | k in Apply(db, c).0.keys && k !in db.keys ::
              Apply(db, c).1 == Created(Apply(db, c).0.keys[k].bookingId)
  {
  }

  /** Some request of the history was answered with booking `b`. */
  ghost predicate Told(db: Db, calls: seq<Call>, b: Uuid)
    requires AllWellFormed(calls)
  {
    exists i | 0 <= i < |calls| :: ReplyAt(db, calls, i) == Created(b)
  }

  lemma ReplyAtPrefix(db: Db, calls: seq<Call>, n: nat, i: nat)
    requires AllWellFormed(calls) && i < n <= |calls|
    ensures ReplyAt(db, calls[..n], i) == ReplyAt(db, calls, i)
  {
    assert calls[..n][..i] == calls[..i];
  }

  lemma ToldLast(db: Db, calls: seq<Call>, b: Uuid)
    requires AllWellFormed(calls) && calls != []
    ensures var n := |calls| - 1; Told(db, calls, b) <==> Told(db, calls[..n], b) || ReplyAt(db, calls, n) == Created(b)
  {
    var n := |calls| - 1;
    forall i | 0 <= i < n ensures ReplyAt(db, calls[..n], i) == ReplyAt(db, calls, i) {
      ReplyAtPrefix(db, calls, n, i);
    }
    if Told(db, calls[..n], b) {
      var i :| 0 <= i < n && ReplyAt(db, calls[..n], i) == Created(b);
      assert ReplyAt(db, calls, i) == Created(b);
    }
  }

  /** The bookings of a history's end are those of its beginning and those its requests were told of. */
  lemma {:induction false} BookingsAnswered(db: Db, calls: seq<Call>, b: Uuid)
    requires AllWellFormed(calls)
    ensures b in Serial(db, calls).bookings <==> b in db.bookings || Told(db, calls, b)
  {
    if calls != [] {
      var n := |calls| - 1;
      BookingsAnswered(db, calls[..n], b);
      ToldLast(db, calls, b);
      StepBookings(Serial(db, calls[..n]), calls[n]);
    }
  }

  lemma {:induction false} KeysAnswered(db: Db, calls: seq<Call>, k: KeyId) returns (i: nat)
    requires AllWellFormed(calls) && k in Serial(db, calls).keys && k !in db.keys
    ensures i < |calls| && ReplyAt(db, calls, i) == Created(Serial(db, calls).keys[k].bookingId)
  {
    var n := |calls| - 1;
    var front := calls[..n];
    StepBookings(Serial(db, front), calls[n]);
    KeysStableIfThere(db, calls, k);
    if k in Serial(db, front).keys {
      i := KeysAnswered(db, front, k);
      ReplyAtPrefix(db, calls, n, i);
    } else {
      i := n;
    }
  }

  lemma KeysStableIfThere(db: Db, calls: seq<Call>, k: KeyId)
    requires AllWellFormed(calls) && calls != []
    ensures var before := Serial(db, calls[..|calls| - 1]);
            k in before.keys ==> k in Serial(db, calls).keys && Serial(db, calls).keys[k] == before.keys[k]
  {
    var before := Serial(db, calls[..|calls| - 1]);
    if k in before.keys {
      KeysStable(before, calls[|calls| - 1], k);
    }
  }

  /** A request that loses a race is undone completely: in every interleaved state the bookings are exactly those
      there at first and those a committed request was answered with, and every key row names one of the latter. */
  lemma NoTraceOfLosers(db: Db, actions: seq<Interleaving.Action>, b: Uuid, k: KeyId)
    requires Interleaving.Run(T.Next, Interleaving.Initial(db), actions).Some?
    ensures var s := Interleaving.Run(T.Next, Interleaving.Initial(db), actions).value;
            (b in s.db.bookings <==> b in db.bookings || Created(b) in s.replies) &&
            (k in s.db.keys && k !in db.keys ==> Created(s.db.keys[k].bookingId) in s.replies)
  {
    Interleaving.Serialisable(db, actions);
    var s := Interleaving.Run(T.Next, Interleaving.Initial(db), actions).value;
    assert forall i | 0 <= i < |s.log| :: ReplyAt(db, s.log, i) == s.replies[i];
    BookingsAnswered(db, s.log, b);
    if k in s.db.keys && k !in db.keys {
      var i := KeysAnswered(db, s.log, k);
      assert s.replies[i] == Created(s.db.keys[k].bookingId);
    }
  }

  /** A create whose key is stored by now never reaches COMMIT: if nothing stops it before, its key insert does. */
  lemma StoredKeyNeverCommits(db: Db, t: T.Txn)
    requires Interleaving.Undisturbed(T.Next, db, t) && t.call.CreateCall? && CreatePrecheck(db, t.call.create).Some?
    ensures !T.Next(t).Commit? && Programs.FailureReason(t) == SlotUnavailable
    ensures t.pc <= 4 && (t.pc == 4 ==> T.Exec(T.Next, t, db).None?)
  {
    if T.Next(t).Commit? {
      Programs.SoloIsAtomic(db, t.call, t.pc);
    }
    Programs.SoloSeen(db, t.call, t.pc);
    assert CreateKeyId(t.call.create) in T.View(db, t).keys;
  }

  /** A create whose key another transaction has since committed is not replayed: past its pre-check it can only
      fail, at its key insert at the latest, and is answered 'slot_unavailable', where run later it would be
      given the booking. */
  lemma ConcurrentDuplicateRefused(db: Db, actions: seq<Interleaving.Action>, i: nat, tx: nat)
    requires Interleaving.Run(T.Next, Interleaving.Initial(db), actions).Some?
    requires var s := Interleaving.Run(T.Next, Interleaving.Initial(db), actions).value;
             i < |s.log| && i < |s.replies| && s.replies[i].Created? &&
             s.log[i].CreateCall? && s.log[i].WellFormed() && HasKey(s.log[i].create.createKey) &&
             tx in s.active && s.active[tx].call.CreateCall? && s.active[tx].call.create == s.log[i].create
    ensures var s := Interleaving.Run(T.Next, Interleaving.Initial(db), actions).value;
            var t := s.active[tx];
            !T.Next(t).Commit? && Programs.FailureReason(t) == SlotUnavailable &&
            t.pc <= 4 && (t.pc == 4 ==> T.Exec(T.Next, t, s.db).None?) &&
            Create(s.db, t.call) == (s.db, Replayed(s.replies[i].id))
  {
    Interleaving.Serialisable(db, actions);
    var s := Interleaving.Run(T.Next, Interleaving.Initial(db), actions).value;
    PrecheckAfterCommit(db, actions, i, s.log[i].create);
    assert Interleaving.Undisturbed(T.Next, s.db, s.active[tx]);
    StoredKeyNeverCommits(s.db, s.active[tx]);
  }

  /** Every create that succeeds can be raced like that: its twin passes the pre-check before it commits. */
  lemma DuplicateRace(db: Db, c: Call, twin: Call) returns (actions: seq<Interleaving.Action>, s: Interleaving.Sys)
    requires c.CreateCall? && c.WellFormed() && Create(db, c).1.Created?
    requires twin.CreateCall? && twin.create == c.create && twin.newId != c.newId && twin.newId !in db.bookings
    ensures Interleaving.Run(T.Next, Interleaving.Initial(db), actions) == Some(s) && s.db == Create(db, c).0
    ensures s.log == [c] && s.replies == [Created(c.newId)] && s.active == map[1 := T.Start(twin)]
  {
    var s0 := Interleaving.Initial(db);
    var s1, s2 := s0.(active := map[0 := T.Start(c)]), s0.(active := map[0 := T.Start(c), 1 := T.Start(twin)]);
    assert Interleaving.Run(T.Next, s0, []) == Some(s0);
    assert s0.active[0 := T.Start(c)] == s1.active && s1.active[1 := T.Start(twin)] == s2.active;
    Interleaving.BeginsAdmitted(T.Next, s0, [], s0, 0, c, c, s1);
    Interleaving.BeginsAdmitted(T.Next, s0, [] + [Interleaving.Begin(0, c)], s1, 1, twin, twin, s2);
    actions := Interleaving.RunsToCommit(s0, [] + [Interleaving.Begin(0, c)] + [Interleaving.Begin(1, twin)], s2, 0);
    s := Interleaving.Sys(Create(db, c).0, map[1 := T.Start(twin)], [c], [Created(c.newId)]);
    assert s2.active - {0} == s.active;
    assert s0.log + [c] == [c] && s0.replies + [Created(c.newId)] == [Created(c.newId)];
  }

  /** Such a create and its twin, from one open slot: the twin's reply is an error although, run now, it would
      be given the booking. */
  lemma DuplicateRaceExists() returns (actions: seq<Interleaving.Action>, s: Interleaving.Sys)
    ensures Interleaving.Run(T.Next, Interleaving.Initial(UnlockedEndpoints.ONE_OPEN), actions) == Some(s)
    ensures |s.log| == 1 && 1 in s.active && s.active[1].pc == 0 &&
            s.active[1].call.CreateCall? && s.active[1].call.WellFormed()
    ensures !T.Next(s.active[1]).Commit? && Create(s.db, s.active[1].call).1.Replayed?
  {
    var r := CreateRequest(UnlockedEndpoints.FIRST, UnlockedEndpoints.CLIENT, Some("key"), "UTC");
    var c := CreateCall(r, 0, 4, 0, 0, UnlockedEndpoints.BOOKING);
    var twin := CreateCall(r, 0, 4, 0, 0, UnlockedEndpoints.LATER);
    assert Create(UnlockedEndpoints.ONE_OPEN, c).1 == Created(UnlockedEndpoints.BOOKING);
    actions, s := DuplicateRace(UnlockedEndpoints.ONE_OPEN, c, twin);
    ConcurrentDuplicateRefused(UnlockedEndpoints.ONE_OPEN, actions, 0, 1);
  }
}
