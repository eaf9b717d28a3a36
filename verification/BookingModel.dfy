/** The rows the booking allocator works on, and the questions it asks about them. */
module BookingModel {
  import opened Options

  // Identifiers are the numeric values of the decimal ids; days are hotel dates in order.
  type RoomId = nat
  type WindowId = nat
  type BookingId = nat
  type Key = nat
  type Day = int
  type Time = int

  const MAX_SAFE_INTEGER := 9007199254740991

  function OrElse<T>(o: Option<T>, fallback: T): T {
    match o case Some(v) => v case None => fallback
  }

  datatype Status = Pending | Confirmed | Rejected | CancelledByUser | CancelledByAdmin | Completed {
    /** Only a live booking still claims its window. */
    predicate Live() { Pending? || Confirmed? }
  }

  /** Check-out is exclusive. */
  datatype Stay = Stay(checkIn: Day, checkOut: Day) {
    predicate Valid() { checkIn < checkOut }
    predicate Covers(d: Day) { checkIn <= d < checkOut }
  }

  /** The one confirmed-overlap comparison: a half-open `<`/`>` pair. */
  predicate Overlaps(a: Stay, b: Stay) {
    a.checkIn < b.checkOut && a.checkOut > b.checkIn
  }

  /** The comparison means exactly that the two stays share a night. */
  lemma OverlapIsSharedNight(a: Stay, b: Stay)
    requires a.Valid() && b.Valid()
    ensures Overlaps(a, b) <==> exists d :: a.Covers(d) && b.Covers(d)
  {
    if Overlaps(a, b) {
      var d := if a.checkIn < b.checkIn then b.checkIn else a.checkIn;
      assert a.Covers(d) && b.Covers(d);
    }
  }

  /** A room-time: the days a room may be booked on. */
  datatype Window = Window(room: RoomId, from: Day, to: Day, active: bool) {
    predicate Fits(s: Stay) { active && from <= s.checkIn && to >= s.checkOut }
    predicate Meets(o: Window) { from < o.to && to > o.from }
  }

  type CurrencyId = nat

  /** What a booking costs, in the currency its room was priced in when it was created. */
  datatype Price = Price(amount: nat, currency: CurrencyId)

  datatype Booking = Booking(window: WindowId, stay: Stay, status: Status, version: nat, price: Price)

  /** Where a stay is. */
  datatype Place = Place(room: RoomId, stay: Stay)

  /** One lifecycle row: the booking after a change, and what it was before. */
  datatype Change = Change(
    version: nat, from: Option<Status>, to: Status, place: Place, price: Price, previous: Option<Place>)

  /** One row of the edit history: the window a stay left and the one it entered. */
  datatype Edit = Edit(from: WindowId, to: WindowId)

  /** A spent idempotency key: what it created, and when retention may forget it. */
  datatype KeyUse = KeyUse(booking: BookingId, expiresAt: Time)

  datatype Db = Db(
    rooms: map<RoomId, bool>,
    windows: map<WindowId, Window>,
    bookings: map<BookingId, Booking>,
    edits: seq<Edit>,
    keys: map<Key, KeyUse>,
    stream: map<BookingId, seq<Change>>)

  /** The physical room a booking is in, through its window. */
  function RoomOf(db: Db, b: BookingId): Option<RoomId> {
    if b in db.bookings && db.bookings[b].window in db.windows then Some(db.windows[db.bookings[b].window].room)
    else None
  }

  /** A confirmed booking of room `r` other than `self` whose stay overlaps `s`. */
  predicate Conflicts(db: Db, r: RoomId, self: BookingId, s: Stay, c: BookingId) {
    c in db.bookings && RoomOf(db, c) == Some(r) && c != self && db.bookings[c].status.Confirmed?
    && Overlaps(db.bookings[c].stay, s)
  }

  ghost predicate NoConflict(db: Db, r: RoomId, self: BookingId, s: Stay) {
    forall c :: c in db.bookings ==> !Conflicts(db, r, self, s, c)
  }

  /** The first window, by start and then id, that can hold the stay. */
  ghost predicate FirstFitting(db: Db, r: RoomId, s: Stay, w: WindowId) {
    && w in db.windows && db.windows[w].room == r && db.windows[w].Fits(s)
    && forall v :: v in db.windows && db.windows[v].room == r && db.windows[v].Fits(s) ==>
        db.windows[w].from < db.windows[v].from || (db.windows[w].from == db.windows[v].from && w <= v)
  }

  /** An active window of `next`'s room, other than `self`, that shares a day with it. */
  ghost predicate WindowFree(db: Db, next: Window, self: Option<WindowId>) {
    next.active ==>
      forall v :: v in db.windows && db.windows[v].room == next.room && db.windows[v].active && Some(v) != self ==>
        !db.windows[v].Meets(next)
  }

  predicate StrictlyIncreasing(s: seq<nat>) {
    forall i, j :: 0 <= i < j < |s| ==> s[i] < s[j]
  }

  function InsertOnce(x: RoomId, s: seq<RoomId>): (r: seq<RoomId>)
    requires StrictlyIncreasing(s)
    ensures StrictlyIncreasing(r)
    ensures forall y :: y in r <==> y == x || y in s
    ensures |r| <= |s| + 1
  {
    if s == [] || x < s[0] then [x] + s
    else if x == s[0] then s
    else
      assert s == [s[0]] + s[1..];
      assert forall k :: 0 <= k < |s[1..]| ==> s[0] < s[1..][k];
      var tail := InsertOnce(x, s[1..]);
      assert forall y :: y in tail ==> s[0] < y;
      [s[0]] + tail
  }

  /** Distinct ids in increasing numeric order: the one order room locks are taken in. */
  function OrderedUniqueRoomIds(ids: seq<RoomId>): (r: seq<RoomId>)
    ensures StrictlyIncreasing(r)
    ensures forall y :: y in r <==> y in ids
    ensures |r| <= |ids|
  {
    if ids == [] then []
    else
      assert ids == [ids[0]] + ids[1..];
      InsertOnce(ids[0], OrderedUniqueRoomIds(ids[1..]))
  }
}
