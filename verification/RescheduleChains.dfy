/** Chains of reschedules: what a booking and its successors have in common. */
module RescheduleChains {
  import opened Tables
  import opened Requests
  import opened SlotExclusivity
  import T = Transactions
  import Interleaving

  /** A booking's chain, named by the booking it began with, and the moves since then. */
  datatype Place = Place(root: Uuid, moves: nat)

  /** What a chain began with, and the booking it has reached. */
  datatype Chain = Chain(client: Uuid, zone: string, base: int, end: Uuid)

  datatype History = History(db: Db, places: map<Uuid, Place>, chains: map<Uuid, Chain>)

  function NewChain(db: Db, b: Uuid): Chain
    requires b in db.bookings
  {
    Chain(db.bookings[b].client, db.bookings[b].timezone, db.bookings[b].version, b)
  }

  function Begin(db: Db): History {
    History(db, map b | b in db.bookings :: Place(b, 0), map b | b in db.bookings :: NewChain(db, b))
  }

  /** A booking nobody moved to starts a chain. */
  function StartChain(h: History, db: Db, id: Uuid): History
    requires id in db.bookings
  {
    History(db, h.places[id := Place(id, 0)], h.chains[id := NewChain(db, id)])
  }

  /** A booking moved to continues the chain of the booking it replaces. */
  function ExtendChain(h: History, db: Db, from: Uuid, id: Uuid): History
    requires from in h.places && h.places[from].root in h.chains
  {
    var p := h.places[from];
    History(db, h.places[id := Place(p.root, p.moves + 1)], h.chains[p.root := h.chains[p.root].(end := id)])
  }

  function Track(h: History, c: Call): History
    requires c.WellFormed()
  {
    var (db, reply) := Apply(h.db, c);
    if !reply.Created? || reply.id !in db.bookings then h.(db := db)
    else if c.RescheduleCall? && c.move.bookingId in h.places && h.places[c.move.bookingId].root in h.chains then
      ExtendChain(h, db, c.move.bookingId, reply.id)
    else StartChain(h, db, reply.id)
  }

  function TrackAll(h: History, calls: seq<Call>): History
    requires AllWellFormed(calls)
  {
    if calls == [] then h
    else Track(TrackAll(h, calls[..|calls| - 1]), calls[|calls| - 1])
  }

  /** The time zone a chain carries: the original's, or 'UTC' after a move when that was empty. */
  function ChainZone(original: string, moves: nat): string {
    if original == "" && moves > 0 then "UTC" else original
  }

  /** A booking fits its chain: it keeps the client and zone the chain began with, only
      the chain's end may be live, and while booked its version is the first one plus the moves behind it. */
  ghost predicate Fits(b: Uuid, row: Booking, p: Place, chain: Chain) {
    row.client == chain.client && row.timezone == ChainZone(chain.zone, p.moves) &&
    (row.Live() ==> chain.end == b) &&
    (row.status == Booked ==> row.version == chain.base + p.moves)
  }

  ghost predicate Chained(h: History) {
    h.places.Keys == h.db.bookings.Keys && (forall r | r in h.chains :: r in h.db.bookings) && AllFit(h)
  }

  ghost predicate AllFit(h: History)
    requires h.places.Keys == h.db.bookings.Keys
  {
    forall b {:trigger h.places[b]} | b in h.places ::
      h.places[b].root in h.chains && Fits(b, h.db.bookings[b], h.places[b], h.chains[h.places[b].root])
  }

  /** Bookings keep client, slot and zone; a status change of a booked booking leaves it no longer booked. */
  ghost predicate Settled(db: Db, db': Db) {
    db'.bookings.Keys == db.bookings.Keys &&
    forall b | b in db.bookings ::
      db'.bookings[b].client == db.bookings[b].client && db'.bookings[b].timezone == db.bookings[b].timezone &&
      (db'.bookings[b] == db.bookings[b] || db'.bookings[b].status != Booked) &&
      (db'.bookings[b].Live() ==> db.bookings[b].Live())
  }

  lemma DecideSettles(db: Db, id: Uuid, client: Uuid, to: BookingStatus)
    requires to != Booked
    ensures Settled(db, Decide(db, id, client, to).0)
  {
  }

  lemma CancelSettles(db: Db, c: Call)
    requires c.CancelCall?
    ensures Settled(db, Cancel(db, c).0)
  {
  }

  lemma TransitionSettles(db: Db, id: Uuid, to: BookingStatus, expected: Option<int>)
    ensures Settled(db, Transition(db, id, to, expected).0)
  {
  }

  lemma LifecycleCancelSettles(db: Db, id: Uuid, window: int, now: int)
    ensures Settled(db, LifecycleCancel(db, id, window, now).0)
  {
  }

  lemma OtherCallsSettle(db: Db, c: Call)
    requires Guarded(c) && !Apply(db, c).1.Created?
    ensures Settled(db, Apply(db, c).0)
  {
    match c
    case ConfirmCall(id, client) => DecideSettles(db, id, client, Completed);
    case DeclineCall(id, client) => DecideSettles(db, id, client, Cancelled);
    case CancelCall(_, _, _, _, _) => CancelSettles(db, c);
    case TransitionCall(id, to, expected) => TransitionSettles(db, id, to, expected);
    case LifecycleCancelCall(id, window, now) => LifecycleCancelSettles(db, id, window, now);
    case CreateCall(_, _, _, _, _, _) =>
    case RescheduleCall(_, _, _) =>
  }

  /** `h'` is `h` with one more booking, which begins a chain. */
  predicate Started(h: History, h': History, id: Uuid, row: Booking) {
    h'.db.bookings == h.db.bookings[id := row] && h'.places == h.places[id := Place(id, 0)] &&
    h'.chains == h.chains[id := Chain(row.client, row.timezone, row.version, id)]
  }

  lemma StartFits(h: History, h': History, id: Uuid, row: Booking, b: Uuid)
    requires Chained(h) && id !in h.db.bookings && Started(h, h', id, row) && b in h'.places
    ensures h'.places[b].root in h'.chains
    ensures Fits(b, h'.db.bookings[b], h'.places[b], h'.chains[h'.places[b].root])
  {
    if b != id {
      KeepsRoot(h, b);
    }
  }

  lemma StartAllFit(h: History, h': History, id: Uuid, row: Booking)
    requires Chained(h) && id !in h.db.bookings && Started(h, h', id, row) && h'.places.Keys == h'.db.bookings.Keys
    ensures AllFit(h')
  {
    forall b {:trigger h'.places[b]} | b in h'.places
      ensures h'.places[b].root in h'.chains
      ensures Fits(b, h'.db.bookings[b], h'.places[b], h'.chains[h'.places[b].root])
    {
      StartFits(h, h', id, row, b);
    }
  }

  lemma StartKeeps(h: History, h': History, id: Uuid, row: Booking)
    requires Chained(h) && id !in h.db.bookings && Started(h, h', id, row)
    ensures Chained(h')
  {
    assert h'.places.Keys == h.places.Keys + {id} && h'.db.bookings.Keys == h.db.bookings.Keys + {id};
    StartAllFit(h, h', id, row);
  }

  lemma KeepsRoot(h: History, b: Uuid)
    requires Chained(h) && b in h.places
    ensures h.places[b].root in h.chains && h.places[b].root in h.db.bookings
    ensures Fits(b, h.db.bookings[b], h.places[b], h.chains[h.places[b].root])
  {
  }

  lemma StillFits(b: Uuid, row: Booking, row': Booking, p: Place, chain: Chain)
    requires Fits(b, row, p, chain) && row'.client == row.client && row'.timezone == row.timezone
    requires row' == row || row'.status != Booked
    requires row'.Live() ==> row.Live()
    ensures Fits(b, row', p, chain)
  {
  }

  lemma NextFits(from: Uuid, row: Booking, p: Place, chain: Chain, id: Uuid, slot: Uuid)
    requires Fits(from, row, p, chain) && row.status == Booked
    ensures Fits(id, MovedBooking(row, slot), Place(p.root, p.moves + 1), chain.(end := id))
    ensures Fits(from, row.(status := Cancelled), p, chain.(end := id))
  {
  }

  /** `h'` is `h` with booking `from` cancelled and booking `id` continuing its chain. */
  predicate Extended(h: History, h': History, from: Uuid, id: Uuid, slot: Uuid)
    requires from in h.db.bookings && from in h.places && h.places[from].root in h.chains
  {
    var p, prev := h.places[from], h.db.bookings[from];
    h'.db.bookings == h.db.bookings[from := prev.(status := Cancelled)][id := MovedBooking(prev, slot)] &&
    h'.places == h.places[id := Place(p.root, p.moves + 1)] &&
    h'.chains == h.chains[p.root := h.chains[p.root].(end := id)]
  }

  lemma ExtendFits(h: History, h': History, from: Uuid, id: Uuid, slot: Uuid, b: Uuid)
    requires Chained(h) && id !in h.db.bookings && from in h.places && h.db.bookings[from].status == Booked
    requires h.places[from].root in h.chains && Extended(h, h', from, id, slot) && b in h'.places
    ensures h'.places[b].root in h'.chains
    ensures Fits(b, h'.db.bookings[b], h'.places[b], h'.chains[h'.places[b].root])
  {
    KeepsRoot(h, from);
    if b == id || b == from {
      NextFits(from, h.db.bookings[from], h.places[from], h.chains[h.places[from].root], id, slot);
    } else {
      KeepsRoot(h, b);
    }
  }

  lemma ExtendKeeps(h: History, h': History, from: Uuid, id: Uuid, slot: Uuid)
    requires Chained(h) && id !in h.db.bookings && from in h.places && h.db.bookings[from].status == Booked
    requires h.places[from].root in h.chains && Extended(h, h', from, id, slot)
    ensures Chained(h')
  {
    KeepsRoot(h, from);
    forall b {:trigger h'.places[b]} | b in h'.places
      ensures h'.places[b].root in h'.chains
      ensures Fits(b, h'.db.bookings[b], h'.places[b], h'.chains[h'.places[b].root])
    {
      ExtendFits(h, h', from, id, slot, b);
    }
  }

  lemma SettledKeeps(h: History, db': Db)
    requires Chained(h) && Settled(h.db, db')
    ensures Chained(h.(db := db'))
  {
    forall b {:trigger h.places[b]} | b in h.places
      ensures h.places[b].root in h.chains && Fits(b, db'.bookings[b], h.places[b], h.chains[h.places[b].root])
    {
      KeepsRoot(h, b);
      StillFits(b, h.db.bookings[b], db'.bookings[b], h.places[b], h.chains[h.places[b].root]);
    }
  }

  lemma TrackCreate(h: History, c: Call)
    requires Chained(h) && c.CreateCall? && c.WellFormed() && Apply(h.db, c).1.Created?
    ensures Chained(Track(h, c))
  {
    StartKeeps(h, Track(h, c), c.newId, Booking(c.create.slotId, c.create.clientId, c.create.timezone, Booked, 1));
  }

  lemma MoveBookings(db: Db, c: Call)
    requires c.RescheduleCall? && c.WellFormed() && Reschedule(db, c).1.Created?
    ensures c.newId !in db.bookings && c.move.bookingId in db.bookings && db.bookings[c.move.bookingId].status == Booked
    ensures Reschedule(db, c).1.id == c.newId
    ensures var prev := db.bookings[c.move.bookingId];
            Reschedule(db, c).0.bookings ==
            db.bookings[c.move.bookingId := prev.(status := Cancelled)][c.newId := MovedBooking(prev, c.move.newSlotId)]
  {
  }

  lemma TrackMove(h: History, c: Call)
    requires Chained(h) && c.RescheduleCall? && c.WellFormed() && Apply(h.db, c).1.Created?
    ensures Chained(Track(h, c))
  {
    var from := c.move.bookingId;
    MoveBookings(h.db, c);
    KeepsRoot(h, from);
    assert Track(h, c) == ExtendChain(h, Reschedule(h.db, c).0, from, c.newId);
    ExtendKeeps(h, ExtendChain(h, Reschedule(h.db, c).0, from, c.newId), from, c.newId, c.move.newSlotId);
  }

  lemma TrackOther(h: History, c: Call)
    requires Chained(h) && Guarded(c) && !Apply(h.db, c).1.Created?
    ensures Chained(Track(h, c))
  {
    OtherCallsSettle(h.db, c);
    SettledKeeps(h, Apply(h.db, c).0);
  }

  lemma OnlyTwoCreate(db: Db, c: Call)
    requires c.WellFormed() && Apply(db, c).1.Created?
    ensures c.CreateCall? || c.RescheduleCall?
  {
  }

  lemma TrackChained(h: History, c: Call)
    requires Chained(h) && Guarded(c)
    ensures Chained(Track(h, c))
  {
    if !Apply(h.db, c).1.Created? {
      TrackOther(h, c);
      return;
    }
    OnlyTwoCreate(h.db, c);
    if c.CreateCall? {
      TrackCreate(h, c);
    } else {
      TrackMove(h, c);
    }
  }

  lemma BeginChained(db: Db)
    ensures Chained(Begin(db))
  {
  }

  lemma {:induction false} AllChained(db: Db, calls: seq<Call>)
    requires AllGuarded(calls)
    ensures AllWellFormed(calls) && Chained(TrackAll(Begin(db), calls)) &&
            TrackAll(Begin(db), calls).db == Serial(db, calls)
  {
    if calls == [] {
      BeginChained(db);
    } else {
      AllChained(db, calls[..|calls| - 1]);
      TrackChained(TrackAll(Begin(db), calls[..|calls| - 1]), calls[|calls| - 1]);
    }
  }

  /** Two bookings of one chain have the same client, the same zone unless the original's was empty, and
      are not both live; a booked one carries the version its chain began with plus the moves behind it. */
  ghost predicate Kin(h: History, b: Uuid, b': Uuid)
    requires b in h.db.bookings && b' in h.db.bookings && b in h.places && h.places[b].root in h.chains
  {
    var x, y := h.db.bookings[b], h.db.bookings[b'];
    x.client == y.client && (x.timezone == y.timezone || {x.timezone, y.timezone} == {"", "UTC"}) &&
    (x.Live() && y.Live() ==> b == b') &&
    (x.status == Booked ==> x.version == h.chains[h.places[b].root].base + h.places[b].moves)
  }

  lemma ChainedKin(h: History, b: Uuid, b': Uuid)
    requires Chained(h) && b in h.places && b' in h.places && h.places[b].root == h.places[b'].root
    ensures b in h.db.bookings && b' in h.db.bookings && h.places[b].root in h.chains && Kin(h, b, b')
  {
    KeepsRoot(h, b);
    KeepsRoot(h, b');
  }

  /** So it is over every run of guarded requests. */
  lemma ChainsHold(db: Db, calls: seq<Call>, b: Uuid, b': Uuid)
    requires AllGuarded(calls) && AllWellFormed(calls)
    requires var h := TrackAll(Begin(db), calls);
             b in h.places && b' in h.places && h.places[b].root == h.places[b'].root
    ensures var h := TrackAll(Begin(db), calls);
            h.db == Serial(db, calls) && b in h.db.bookings && b' in h.db.bookings &&
            h.places[b].root in h.chains && Kin(h, b, b')
  {
    AllChained(db, calls);
    ChainedKin(TrackAll(Begin(db), calls), b, b');
  }

  /** And over every interleaving of create, reschedule, confirm and decline, along the log of what committed. */
  lemma ChainsHoldInterleaved(db: Db, actions: seq<Interleaving.Action>, b: Uuid, b': Uuid)
    requires AllLocking(actions) && Interleaving.Run(T.Next, Interleaving.Initial(db), actions).Some?
    ensures var s := Interleaving.Run(T.Next, Interleaving.Initial(db), actions).value;
            AllWellFormed(s.log) &&
            var h := TrackAll(Begin(db), s.log);
            h.db == s.db &&
            (b in h.places && b' in h.places && h.places[b].root == h.places[b'].root ==>
              b in h.db.bookings && b' in h.db.bookings && h.places[b].root in h.chains && Kin(h, b, b'))
  {
    Interleaving.Serialisable(db, actions);
    RunLocking(db, actions);
    var s := Interleaving.Run(T.Next, Interleaving.Initial(db), actions).value;
    AllChained(db, s.log);
    var h := TrackAll(Begin(db), s.log);
    if b in h.places && b' in h.places && h.places[b].root == h.places[b'].root {
      ChainedKin(h, b, b');
    }
  }

  // ---------- what stays decided ----------

  predicate Final(b: Booking) {
    b.status != Booked
  }

  lemma FinalFrozen(db: Db, c: Call, b: Uuid)
    requires Guarded(c) && b in db.bookings && Final(db.bookings[b])
    ensures b in Apply(db, c).0.bookings && Apply(db, c).0.bookings[b] == db.bookings[b]
  {
  }

  /** No guarded request ever changes a booking that is no longer booked. */
  lemma {:induction false} FinalFrozenOver(db: Db, calls: seq<Call>, b: Uuid)
    requires AllGuarded(calls) && b in db.bookings && Final(db.bookings[b])
    ensures AllWellFormed(calls) && b in Serial(db, calls).bookings && Serial(db, calls).bookings[b] == db.bookings[b]
  {
    if calls != [] {
      FinalFrozenOver(db, calls[..|calls| - 1], b);
      FinalFrozen(Serial(db, calls[..|calls| - 1]), calls[|calls| - 1], b);
    }
  }

  /** Version `v` of the booking can no longer be moved. */
  predicate Spent(db: Db, b: Uuid, v: int) {
    b in db.bookings && db.bookings[b].version >= v && (db.bookings[b].status != Booked || db.bookings[b].version > v)
  }

  /** Every request keeps that, PATCH and the bare writes of cancel included: a revival bumps the version. */
  lemma SpentStays(db: Db, c: Call, b: Uuid, v: int)
    requires c.WellFormed() && Spent(db, b, v)
    ensures Spent(Apply(db, c).0, b, v)
  {
  }

  lemma {:induction false} SpentStaysOver(db: Db, calls: seq<Call>, b: Uuid, v: int)
    requires AllWellFormed(calls) && Spent(db, b, v)
    ensures Spent(Serial(db, calls), b, v)
  {
    if calls != [] {
      SpentStaysOver(db, calls[..|calls| - 1], b, v);
      SpentStays(Serial(db, calls[..|calls| - 1]), calls[|calls| - 1], b, v);
    }
  }

  /** The call moves version `v` of booking `b`. */
  predicate Moves(db: Db, c: Call, b: Uuid, v: int)
    requires c.WellFormed()
  {
    c.RescheduleCall? && c.move.bookingId == b && c.move.version == v && Apply(db, c).1.Created?
  }

  lemma MoveSpends(db: Db, c: Call, b: Uuid, v: int)
    requires c.WellFormed() && Moves(db, c, b, v)
    ensures !Spent(db, b, v) && Spent(Apply(db, c).0, b, v)
  {
  }

  /** Resending a successful reschedule, after any requests whatever and under any new id, is refused and
      creates nothing. */
  lemma ResendCreatesNothing(db: Db, c: Call, between: seq<Call>, again: Call)
    requires c.RescheduleCall? && c.WellFormed() && Reschedule(db, c).1.Created?
    requires AllWellFormed(between) && again.RescheduleCall? && again.move == c.move
    ensures var later := Serial(Reschedule(db, c).0, between);
            Reschedule(later, again).0 == later && Reschedule(later, again).1.Rejected?
  {
    MoveSpends(db, c, c.move.bookingId, c.move.version);
    SpentStaysOver(Reschedule(db, c).0, between, c.move.bookingId, c.move.version);
  }

  /** Of one history, at most one reschedule moves a given version of a booking. */
  lemma OneMovePerVersion(db: Db, calls: seq<Call>, i: nat, j: nat, b: Uuid, v: int)
    requires AllWellFormed(calls) && i < j < |calls|
    requires Moves(Serial(db, calls[..i]), calls[i], b, v)
    ensures !Moves(Serial(db, calls[..j]), calls[j], b, v)
  {
    var upto := calls[..j];
    assert upto[..i + 1] == calls[..i + 1] && calls[..i + 1][..i] == calls[..i];
    MoveSpends(Serial(db, calls[..i]), calls[i], b, v);
    SerialSplit(db, upto, i + 1);
    SpentStaysOver(Serial(db, calls[..i + 1]), upto[i + 1..], b, v);
    if Moves(Serial(db, upto), calls[j], b, v) {
      MoveSpends(Serial(db, upto), calls[j], b, v);
    }
  }

  /** So of all transactions that commit in any interleaving: two clients, or one client twice, who
      move the same version of a booking at once get one new booking between them. */
  lemma OneMovePerVersionInterleaved(db: Db, actions: seq<Interleaving.Action>, i: nat, j: nat, b: Uuid, v: int)
    requires Interleaving.Run(T.Next, Interleaving.Initial(db), actions).Some?
    requires i < j < |Interleaving.Run(T.Next, Interleaving.Initial(db), actions).value.log|
    ensures var s := Interleaving.Run(T.Next, Interleaving.Initial(db), actions).value;
            AllWellFormed(s.log) &&
            !(Moves(Serial(db, s.log[..i]), s.log[i], b, v) && Moves(Serial(db, s.log[..j]), s.log[j], b, v))
  {
    Interleaving.Serialisable(db, actions);
    var s := Interleaving.Run(T.Next, Interleaving.Initial(db), actions).value;
    if Moves(Serial(db, s.log[..i]), s.log[i], b, v) {
      OneMovePerVersion(db, s.log, i, j, b, v);
    }
  }
}
