/**
 * End to end: booking transactions and the lifecycle stream as one system. A transaction that changes a booking
 * inserts its outbox row in the same commit; everything after that happens in its own time, through the relay's gate
 * and the consumer's parser.
 */
module BookingReadModel {
  import opened Options
  import opened BookingModel
  import opened LifecycleCodec
  import opened StatsProjection
  import B = BookingProtocol
  import S = BookingSafety
  import L = LifecycleStream

  datatype System = System(hotel: B.State, stream: L.Stream)

  /** How the rows are spelled, and the currency codes the codec knows. */
  datatype Setting = Setting(sp: Spelling, iso: set<string>)

  /**
   * A step of a booking transaction, with the id and the time of the outbox row it may insert; or a step of the
   * stream.
   */
  datatype Step = Hotel(t: B.TxId, e: B.Event, eventId: string, occurredAt: int) | Pipe(step: L.Step)

  /** The booking a step commits a change of, if any. */
  function Changed(s: B.State, t: B.TxId, e: B.Event): Option<BookingId> {
    if t !in s.txs || e.Quit? || !B.Commits(s.txs[t], e) then None
    else match s.txs[t]
      case Writing(_, b, _, _, _, _) => Some(b)
      case WritingClosing(_, b, _) => Some(b)
      case CreateWriting(_, _, _, _, _) => if e.CreateWrite? then Some(e.b) else None
      case _ => None
  }

  function RowsOf(db: Db, b: BookingId): seq<Change> { if b in db.stream then db.stream[b] else [] }

  /** The outbox row of a change. */
  function EventOf(sp: Spelling, b: BookingId, c: Change, eventId: string, occurredAt: int): Received {
    Received(eventId, occurredAt, ToPayload(sp, b, c))
  }

  lemma ChangeIsAppended(s: B.State, t: B.TxId, e: B.Event)
    requires B.Enabled(s, t, e)
    ensures
      var db, db' := s.db, B.Apply(s, t, e).db;
      match Changed(s, t, e)
      case None => db'.stream == db.stream
      case Some(b) => RowsOf(db', b) != [] && db'.stream == db.stream[b := RowsOf(db, b) + [Last(RowsOf(db', b))]]
  {
  }

  function Last<T>(s: seq<T>): T
    requires s != []
  {
    s[|s| - 1]
  }

  function PublicIds(sp: Spelling, ids: set<BookingId>): set<string> { set b | b in ids :: sp.publicId(b) }

  /** The outbox row can be inserted: its id is new, and its columns hold what the change says. */
  ghost predicate Insertable(x: Setting, s: System, b: BookingId, c: Change, id: string, at: int) {
    && id !in s.stream.rows
    && (forall t :: t in s.stream.relays ==> id !in s.stream.relays[t].messages && id !in s.stream.relays[t].invalid)
    && IsUuid(id) && MIN_STORABLE <= at <= MAX_STORABLE
    // The unique public-id column refuses a new booking that repeats one.
    && (b !in s.hotel.db.stream ==> x.sp.publicId(b) !in PublicIds(x.sp, s.hotel.db.stream.Keys))
    && IsPublicId(x.sp.publicId(b)) && IsCurrency(x.iso, x.sp.currency(c.price.currency)) && Spells(x.sp, c.place)
  }

  ghost predicate Enabled(x: Setting, s: System, e: Step) {
    match e
    case Pipe(step) => !step.Record? && L.Enabled(s.stream, step)
    case Hotel(t, event, id, at) =>
      && B.Enabled(s.hotel, t, event)
      && match Changed(s.hotel, t, event)
         case None => true
         case Some(b) =>
           var rows := RowsOf(B.Apply(s.hotel, t, event).db, b);
           rows != [] && Insertable(x, s, b, Last(rows), id, at)
  }

  /** The step of the stream that the commit of a change includes. */
  ghost function InsertOf(x: Setting, s: System, e: Step): L.Step
    requires e.Hotel? && Enabled(x, s, e) && Changed(s.hotel, e.t, e.e).Some?
  {
    var b := Changed(s.hotel, e.t, e.e).value;
    L.Record(EventOf(x.sp, b, Last(RowsOf(B.Apply(s.hotel, e.t, e.e).db, b)), e.eventId, e.occurredAt))
  }

  /** The insert is not checked against the history: `InsertIsEnabled` shows that it always continues it. */
  ghost predicate Moves(x: Setting, s: System, e: Step, s': System) {
    && Enabled(x, s, e)
    && match e
       case Pipe(step) => s' == s.(stream := L.Next(s.stream, step))
       case Hotel(t, event, _, _) =>
         && s'.hotel == B.Apply(s.hotel, t, event)
         && (Changed(s.hotel, t, event).None? ==> s'.stream == s.stream)
         && (Changed(s.hotel, t, event).Some? && L.Enabled(s.stream, InsertOf(x, s, e)) ==>
               s'.stream == L.Next(s.stream, InsertOf(x, s, e)))
  }

  // ---- the coupling ----

  ghost predicate Spelt(sp: Spelling, b: BookingId, c: Change, fact: Fact) {
    exists id, at :: fact == ToEntry(EventOf(sp, b, c, id, at)).fact
  }

  /** The recorded history of a booking is its lifecycle rows, one for one. */
  ghost predicate Records(sp: Spelling, b: BookingId, rows: seq<Change>, facts: seq<Fact>) {
    |facts| == |rows| && forall i :: 0 <= i < |rows| ==> Spelt(sp, b, rows[i], facts[i]) && Spells(sp, rows[i].place)
  }

  ghost predicate DistinctIds(sp: Spelling, ids: set<BookingId>) {
    forall b, c :: b in ids && c in ids && sp.publicId(b) == sp.publicId(c) ==> b == c
  }

  function FactsOf(h: L.History, key: string): seq<Fact> { if key in h then h[key] else [] }

  ghost predicate Coupled(sp: Spelling, db: Db, h: L.History) {
    && (forall b :: b in db.stream ==> Records(sp, b, db.stream[b], FactsOf(h, sp.publicId(b))))
    && DistinctIds(sp, db.stream.Keys) && h.Keys == PublicIds(sp, db.stream.Keys)
  }

  /** A stored change meets the payload contract, unless its version outgrew it. */
  predicate Fits(iso: set<string>, r: Received) {
    L.Storable(r) && (ValidPayload(iso, r.payload) || r.payload.version > MAX_SAFE_INTEGER)
  }

  ghost predicate AllFit(iso: set<string>, s: L.Stream) {
    && s.wire == L.JsonWire(iso)
    && (forall id :: id in s.rows ==> Fits(iso, s.rows[id].event)) && (forall r :: r in s.refused ==> Fits(iso, r))
  }

  ghost predicate Inv(x: Setting, s: System) {
    S.Inv(s.hotel) && L.Inv(s.stream) && Coupled(x.sp, s.hotel.db, s.stream.history) && AllFit(x.iso, s.stream)
  }

  lemma NextVersion(db: Db, b: BookingId)
    requires S.DbInv(db) && b in db.stream && db.stream[b] != []
    ensures S.Chained(db.stream[b]) && Last(db.stream[b]).version == |db.stream[b]|
  {
    assert S.Tells(db.stream[b], db.bookings[b], RoomOf(db, b));
    assert S.Follows(db.stream[b], |db.stream[b]| - 1);
  }

  lemma HistoryIsRows(x: Setting, s: System, b: BookingId)
    requires Coupled(x.sp, s.hotel.db, s.stream.history)
    requires b !in s.hotel.db.stream ==> x.sp.publicId(b) !in PublicIds(x.sp, s.hotel.db.stream.Keys)
    ensures |L.HistoryOf(s.stream, x.sp.publicId(b))| == |RowsOf(s.hotel.db, b)|
  {
  }

  /** A change carries the version after the ones already recorded, so it continues the recorded history. */
  lemma InsertIsEnabled(x: Setting, s: System, e: Step)
    requires Inv(x, s) && e.Hotel? && Enabled(x, s, e) && Changed(s.hotel, e.t, e.e).Some?
    ensures L.Enabled(s.stream, InsertOf(x, s, e))
  {
    ChangeIsAppended(s.hotel, e.t, e.e);
    S.StepKeeps(s.hotel, e.t, e.e);
    var b := Changed(s.hotel, e.t, e.e).value;
    NextVersion(B.Apply(s.hotel, e.t, e.e).db, b);
    HistoryIsRows(x, s, b);
    assert L.Storable(InsertOf(x, s, e).event);
  }

  /** The inserted row meets the payload contract, because the booking's history does. */
  lemma InsertFits(x: Setting, db: Db, db': Db, h: L.History, b: BookingId, id: string, at: int)
    requires S.DbInv(db') && Coupled(x.sp, db, h) && IsUuid(id) && MIN_STORABLE <= at <= MAX_STORABLE
    requires RowsOf(db', b) != [] && db'.stream == db.stream[b := RowsOf(db, b) + [Last(RowsOf(db', b))]]
    requires
      var c := Last(RowsOf(db', b));
      IsPublicId(x.sp.publicId(b)) && IsCurrency(x.iso, x.sp.currency(c.price.currency)) && Spells(x.sp, c.place)
    ensures Fits(x.iso, EventOf(x.sp, b, Last(RowsOf(db', b)), id, at))
  {
    NextVersion(db', b);
    var rows := db'.stream[b];
    var n := |rows| - 1;
    if n > 0 {
      assert Records(x.sp, b, db.stream[b], FactsOf(h, x.sp.publicId(b)));
      assert rows[n - 1] == db.stream[b][n - 1];
    }
    if n < MAX_SAFE_INTEGER { HistoryIsValid(x.iso, x.sp, b, rows, n); }
  }

  /** The histories after a change of `b` was recorded as `fact`. */
  ghost predicate Appended(sp: Spelling, db: Db, db': Db, h: L.History, h': L.History, b: BookingId, c: Change,
                           fact: Fact) {
    && db'.stream == db.stream[b := RowsOf(db, b) + [c]]
    && h' == h[sp.publicId(b) := FactsOf(h, sp.publicId(b)) + [fact]]
    && Spells(sp, c.place) && Spelt(sp, b, c, fact)
    && (b !in db.stream ==> sp.publicId(b) !in PublicIds(sp, db.stream.Keys))
  }

  lemma ChangedStaysCoupled(sp: Spelling, db: Db, db': Db, h: L.History, h': L.History, b: BookingId, c: Change,
                            fact: Fact)
    requires Coupled(sp, db, h) && Appended(sp, db, db', h, h', b, c, fact)
    ensures Records(sp, b, db'.stream[b], FactsOf(h', sp.publicId(b)))
  {
    assert Records(sp, b, RowsOf(db, b), FactsOf(h, sp.publicId(b)));
  }

  lemma OthersStayCoupled(sp: Spelling, db: Db, db': Db, h: L.History, h': L.History, b: BookingId, c: Change,
                          fact: Fact, d: BookingId)
    requires Coupled(sp, db, h) && Appended(sp, db, db', h, h', b, c, fact) && d in db.stream && d != b
    ensures Records(sp, d, db'.stream[d], FactsOf(h', sp.publicId(d)))
  {
    assert Records(sp, d, db.stream[d], FactsOf(h, sp.publicId(d)));
    assert sp.publicId(d) in PublicIds(sp, db.stream.Keys);
  }

  lemma AppendKeepsCoupling(sp: Spelling, db: Db, db': Db, h: L.History, h': L.History, b: BookingId, c: Change,
                            fact: Fact)
    requires Coupled(sp, db, h) && Appended(sp, db, db', h, h', b, c, fact)
    ensures Coupled(sp, db', h')
  {
    forall d | d in db'.stream ensures Records(sp, d, db'.stream[d], FactsOf(h', sp.publicId(d))) {
      if d == b {
        ChangedStaysCoupled(sp, db, db', h, h', b, c, fact);
      } else {
        OthersStayCoupled(sp, db, db', h, h', b, c, fact, d);
      }
    }
    KeysStayMatched(sp, db, db', h, h', b, c, fact);
  }

  lemma KeysStayMatched(sp: Spelling, db: Db, db': Db, h: L.History, h': L.History, b: BookingId, c: Change, fact: Fact)
    requires Coupled(sp, db, h) && Appended(sp, db, db', h, h', b, c, fact)
    ensures DistinctIds(sp, db'.stream.Keys) && h'.Keys == PublicIds(sp, db'.stream.Keys)
  {
    assert db'.stream.Keys == db.stream.Keys + {b};
    OneMoreId(sp, db.stream.Keys, b);
  }

  lemma OneMoreId(sp: Spelling, ids: set<BookingId>, b: BookingId)
    requires DistinctIds(sp, ids) && (b !in ids ==> sp.publicId(b) !in PublicIds(sp, ids))
    ensures DistinctIds(sp, ids + {b}) && PublicIds(sp, ids + {b}) == PublicIds(sp, ids) + {sp.publicId(b)}
  {
    forall c | c in ids && sp.publicId(c) == sp.publicId(b) ensures c == b {
      assert sp.publicId(c) in PublicIds(sp, ids);
    }
  }

  /** No step of the stream itself adds to the history or changes what is stored. */
  lemma PipeKeeps(iso: set<string>, s: L.Stream, e: L.Step)
    requires L.Enabled(s, e) && AllFit(iso, s) && (e.Record? ==> Fits(iso, e.event))
    ensures AllFit(iso, L.Next(s, e)) && (!e.Record? ==> L.Next(s, e).history == s.history)
  {
  }

  lemma SameHistory(sp: Spelling, db: Db, db': Db, h: L.History)
    requires Coupled(sp, db, h) && db'.stream == db.stream
    ensures Coupled(sp, db', h)
  {
    forall c | c in db'.stream ensures Records(sp, c, db'.stream[c], FactsOf(h, sp.publicId(c))) {
      assert Records(sp, c, db.stream[c], FactsOf(h, sp.publicId(c)));
    }
  }

  /** What the insert adds to the recorded history. */
  lemma InsertAppends(x: Setting, s: System, e: Step)
    requires e.Hotel? && Enabled(x, s, e) && Changed(s.hotel, e.t, e.e).Some? && L.Enabled(s.stream, InsertOf(x, s, e))
    ensures
      var b, db' := Changed(s.hotel, e.t, e.e).value, B.Apply(s.hotel, e.t, e.e).db;
      var h' := L.Next(s.stream, InsertOf(x, s, e)).history;
      Appended(x.sp, s.hotel.db, db', s.stream.history, h', b, Last(RowsOf(db', b)),
               ToEntry(InsertOf(x, s, e).event).fact)
  {
    ChangeIsAppended(s.hotel, e.t, e.e);
  }

  lemma ChangeStep(x: Setting, s: System, e: Step)
    requires Inv(x, s) && e.Hotel? && Enabled(x, s, e) && Changed(s.hotel, e.t, e.e).Some?
    requires L.Enabled(s.stream, InsertOf(x, s, e)) && S.DbInv(B.Apply(s.hotel, e.t, e.e).db)
    ensures
      var stream := L.Next(s.stream, InsertOf(x, s, e));
      L.Inv(stream) && Coupled(x.sp, B.Apply(s.hotel, e.t, e.e).db, stream.history) && AllFit(x.iso, stream)
  {
    ChangeIsAppended(s.hotel, e.t, e.e);
    var db', insert := B.Apply(s.hotel, e.t, e.e).db, InsertOf(x, s, e);
    var b := Changed(s.hotel, e.t, e.e).value;
    InsertFits(x, s.hotel.db, db', s.stream.history, b, e.eventId, e.occurredAt);
    L.StepKeeps(s.stream, insert);
    PipeKeeps(x.iso, s.stream, insert);
    InsertAppends(x, s, e);
    AppendKeepsCoupling(x.sp, s.hotel.db, db', s.stream.history, L.Next(s.stream, insert).history, b,
                        Last(RowsOf(db', b)), ToEntry(insert.event).fact);
  }

  lemma HotelStep(x: Setting, s: System, e: Step, s': System)
    requires Inv(x, s) && Moves(x, s, e, s') && e.Hotel?
    ensures Inv(x, s')
  {
    S.StepKeeps(s.hotel, e.t, e.e);
    if Changed(s.hotel, e.t, e.e).Some? {
      InsertIsEnabled(x, s, e);
      ChangeStep(x, s, e);
    } else {
      ChangeIsAppended(s.hotel, e.t, e.e);
      SameHistory(x.sp, s.hotel.db, s'.hotel.db, s.stream.history);
    }
  }

  lemma StepKeeps(x: Setting, s: System, e: Step, s': System)
    requires Inv(x, s) && Moves(x, s, e, s')
    ensures Inv(x, s')
  {
    if e.Hotel? {
      HotelStep(x, s, e, s');
    } else {
      L.StepKeeps(s.stream, e.step);
      PipeKeeps(x.iso, s.stream, e.step);
    }
  }

  type Run = seq<Step>

  /** The run leads from `s` to `end`. */
  ghost predicate Reaches(x: Setting, s: System, run: Run, end: System)
    decreases |run|
  {
    if run == [] then s == end
    else exists next :: Moves(x, s, run[0], next) && Reaches(x, next, run[1..], end)
  }

  function Start(x: Setting, rooms: map<RoomId, bool>, partitions: nat): System {
    System(S.Start(rooms), L.Empty(L.JsonWire(x.iso), partitions))
  }

  lemma StartInv(x: Setting, rooms: map<RoomId, bool>, partitions: nat)
    ensures Inv(x, Start(x, rooms, partitions))
  {
    L.JsonWireIsFaithful(x.iso);
    L.EmptyInv(L.JsonWire(x.iso), partitions);
  }

  lemma {:induction false} RunKeeps(x: Setting, s: System, run: Run, end: System)
    requires Inv(x, s) && Reaches(x, s, run, end)
    ensures Inv(x, end)
    decreases |run|
  {
    if run != [] {
      var next :| Moves(x, s, run[0], next) && Reaches(x, next, run[1..], end);
      StepKeeps(x, s, run[0], next);
      RunKeeps(x, next, run[1..], end);
    }
  }

  // ---- what the read model shows ----

  /** A fact that shows a booking as the bookings table holds it. */
  ghost predicate Shows(sp: Spelling, db: Db, b: BookingId, fact: Fact) {
    b in db.bookings && RoomOf(db, b).Some?
    && var row := db.bookings[b];
    && fact.version == row.version && fact.status == row.status
    && fact.amount == row.price.amount && fact.currency == sp.currency(row.price.currency)
    && fact.roomId == sp.room(RoomOf(db, b).value) && fact.roomTypeId == sp.roomType(RoomOf(db, b).value)
    && fact.checkIn == sp.day(row.stay.checkIn) && fact.checkOut == sp.day(row.stay.checkOut)
  }

  /** Versions the payload contract can count: the largest integer JSON carries exactly. */
  ghost predicate VersionsFit(db: Db) { forall b :: b in db.bookings ==> db.bookings[b].version <= MAX_SAFE_INTEGER }

  /** A recorded change belongs to a booking, which is at its version or a later one. */
  lemma KnownHasItsBooking(x: Setting, s: System, e: Entry) returns (b: BookingId)
    requires Inv(x, s) && L.Known(s.stream.history, e)
    ensures b in s.hotel.db.bookings && x.sp.publicId(b) == e.key && e.fact.version <= s.hotel.db.bookings[b].version
  {
    var db := s.hotel.db;
    assert e.key in PublicIds(x.sp, db.stream.Keys);
    b :| b in db.stream && x.sp.publicId(b) == e.key;
    HistoryIsRows(x, s, b);
    assert S.Tells(db.stream[b], db.bookings[b], RoomOf(db, b));
  }

  /** The relay's gate refuses no change of a booking whose version the contract can count. */
  lemma RefusedOutgrew(x: Setting, s: System, r: Received)
    requires Inv(x, s) && r in s.stream.refused
    ensures exists b :: b in s.hotel.db.bookings && s.hotel.db.bookings[b].version > MAX_SAFE_INTEGER
  {
    assert r.payload.version > MAX_SAFE_INTEGER by { L.JsonWireIsFaithful(x.iso); }
    var b := KnownHasItsBooking(x, s, ToEntry(r));
  }

  lemma NothingIsRefused(x: Setting, s: System)
    requires Inv(x, s) && VersionsFit(s.hotel.db)
    ensures s.stream.refused == {}
  {
    if r :| r in s.stream.refused { RefusedOutgrew(x, s, r); }
  }

  lemma DrainedShows(x: Setting, s: System, b: BookingId)
    requires Inv(x, s) && L.Drained(s.stream) && s.stream.refused == {} && b in s.hotel.db.bookings
    ensures x.sp.publicId(b) in s.stream.facts && Shows(x.sp, s.hotel.db, b, s.stream.facts[x.sp.publicId(b)])
  {
    var db, k := s.hotel.db, x.sp.publicId(b);
    assert S.Tells(db.stream[b], db.bookings[b], RoomOf(db, b));
    var n := |db.stream[b]|;
    assert Records(x.sp, b, db.stream[b], FactsOf(s.stream.history, k));
    assert k in PublicIds(x.sp, db.stream.Keys);
    L.LatestReached(s.stream, k);
    assert Spelt(x.sp, b, db.stream[b][n - 1], s.stream.history[k][n - 1]);
    assert S.Follows(db.stream[b], n - 1);
  }

  lemma FactHasItsBooking(x: Setting, s: System, k: string)
    requires Inv(x, s) && k in s.stream.facts
    ensures k in PublicIds(x.sp, s.hotel.db.bookings.Keys)
  {
    var b := KnownHasItsBooking(x, s, Entry(k, s.stream.facts[k]));
  }

  ghost predicate Mirrored(x: Setting, s: System, b: BookingId) {
    x.sp.publicId(b) in s.stream.facts && Shows(x.sp, s.hotel.db, b, s.stream.facts[x.sp.publicId(b)])
  }

  /** One row for each booking, no other rows, and each shows its booking. */
  ghost predicate Mirrors(x: Setting, s: System) {
    && s.stream.facts.Keys == PublicIds(x.sp, s.hotel.db.bookings.Keys)
    && forall b :: b in s.hotel.db.bookings ==> Mirrored(x, s, b)
  }

  lemma SameKeys(sp: Spelling, ids: set<BookingId>, keys: set<string>)
    requires forall b :: b in ids ==> sp.publicId(b) in keys
    requires forall k :: k in keys ==> k in PublicIds(sp, ids)
    ensures keys == PublicIds(sp, ids)
  {
  }

  lemma DrainedMirrors(x: Setting, s: System)
    requires Inv(x, s) && L.Drained(s.stream) && s.stream.refused == {}
    ensures Mirrors(x, s)
  {
    forall b | b in s.hotel.db.bookings ensures Mirrored(x, s, b) {
      DrainedShows(x, s, b);
    }
    assert s.stream.facts.Keys == PublicIds(x.sp, s.hotel.db.bookings.Keys) by {
      forall b | b in s.hotel.db.bookings.Keys ensures x.sp.publicId(b) in s.stream.facts.Keys {
        assert Mirrored(x, s, b);
      }
      forall k | k in s.stream.facts.Keys ensures k in PublicIds(x.sp, s.hotel.db.bookings.Keys) {
        FactHasItsBooking(x, s, k);
      }
      SameKeys(x.sp, s.hotel.db.bookings.Keys, s.stream.facts.Keys);
    }
  }

  /**
   * Whatever the transactions, relays, brokers, consumers, retention and rebuilds did: once the outbox is empty of
   * work and the consumer has caught up, the gate has refused nothing, and the read model has one row for each
   * booking, no other rows, and each shows its booking as it is.
   */
  lemma ReadModelMirrorsBookings(x: Setting, rooms: map<RoomId, bool>, partitions: nat, run: Run, end: System)
    requires Reaches(x, Start(x, rooms, partitions), run, end)
    requires L.Drained(end.stream) && VersionsFit(end.hotel.db)
    ensures end.stream.refused == {} && Mirrors(x, end)
  {
    StartInv(x, rooms, partitions);
    RunKeeps(x, Start(x, rooms, partitions), run, end);
    NothingIsRefused(x, end);
    DrainedMirrors(x, end);
  }
}
