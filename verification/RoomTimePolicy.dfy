/** What room-time administration may do to a window, decided from how much the window is used. */
module RoomTimePolicy {
  import opened BookingModel

  datatype Usage = Usage(bookings: nat, active: nat, changes: nat)

  const UNUSED := Usage(0, 0, 0)

  predicate UpdateAllowed(current: Window, next: Window, usage: Usage) {
    && next.from < next.to
    && (current.from != next.from || current.to != next.to ==> usage.bookings == 0 && usage.changes == 0)
    && (current.active && !next.active ==> usage.active == 0)
  }

  predicate DeleteAllowed(usage: Usage) {
    usage.bookings == 0 && usage.changes == 0
  }

  function BookingsOf(db: Db, w: WindowId): set<BookingId> {
    set b | b in db.bookings && db.bookings[b].window == w
  }

  function ActiveOf(db: Db, w: WindowId): set<BookingId> {
    set b | b in db.bookings && db.bookings[b].window == w && db.bookings[b].status.Live()
  }

  function EditsFrom(db: Db, w: WindowId): set<nat> {
    set i: nat | i < |db.edits| && db.edits[i].from == w
  }

  /** The destination side skips edits that stayed in their window. */
  function EditsInto(db: Db, w: WindowId): set<nat> {
    set i: nat | i < |db.edits| && db.edits[i].to == w && db.edits[i].to != db.edits[i].from
  }

  function EditsTouching(db: Db, w: WindowId): set<nat> {
    set i: nat | i < |db.edits| && (db.edits[i].from == w || db.edits[i].to == w)
  }

  function UsageOf(db: Db, w: WindowId): (u: Usage)
    ensures u.bookings == 0 <==> forall b :: b in db.bookings ==> db.bookings[b].window != w
    ensures u.active == 0 <==> forall b :: b in db.bookings && db.bookings[b].window == w ==>
      !db.bookings[b].status.Live()
  {
    assert forall b :: b in db.bookings && db.bookings[b].window == w ==> b in BookingsOf(db, w);
    assert forall b :: b in db.bookings && db.bookings[b].window == w && db.bookings[b].status.Live() ==>
      b in ActiveOf(db, w);
    Usage(|BookingsOf(db, w)|, |ActiveOf(db, w)|, |EditsTouching(db, w)|)
  }

  lemma EditCountedOnce(db: Db, w: WindowId)
    ensures |EditsFrom(db, w)| + |EditsInto(db, w)| == |EditsTouching(db, w)|
  {
    assert EditsFrom(db, w) !! EditsInto(db, w);
    assert EditsFrom(db, w) + EditsInto(db, w) == EditsTouching(db, w);
  }

  /** One `GROUP BY` row per requested window that some edit left. */
  function RowsFrom(db: Db, ids: set<WindowId>): (r: map<WindowId, nat>)
    ensures r.Keys <= ids
    ensures forall w :: w in ids ==> |EditsFrom(db, w)| == if w in r then r[w] else 0
  {
    map w | w in ids && |EditsFrom(db, w)| > 0 :: |EditsFrom(db, w)|
  }

  /** The same for windows that some edit entered from another one. */
  function RowsInto(db: Db, ids: set<WindowId>): (r: map<WindowId, nat>)
    ensures r.Keys <= ids
    ensures forall w :: w in ids ==> |EditsInto(db, w)| == if w in r then r[w] else 0
  {
    map w | w in ids && |EditsInto(db, w)| > 0 :: |EditsInto(db, w)|
  }

  /** The same for windows that any booking is in. */
  function RowsBooked(db: Db, ids: set<WindowId>): (r: map<WindowId, nat>)
    ensures r.Keys <= ids
    ensures forall w :: w in ids ==> |BookingsOf(db, w)| == if w in r then r[w] else 0
  {
    map w | w in ids && |BookingsOf(db, w)| > 0 :: |BookingsOf(db, w)|
  }

  /**
   * Usage of every requested window, and of no other: seeded with zeros, then filled from three
   * grouped counts. Other windows have no entry.
   */
  method FindByRoomTimeIds(db: Db, ids: seq<WindowId>) returns (usage: map<WindowId, Usage>)
    ensures usage.Keys == (set w | w in ids)
    ensures forall w :: w in usage ==> usage[w] == UsageOf(db, w)
  {
    var asked := set w | w in ids;
    usage := CountBookings(db, asked);
    usage := AddChanges(usage, RowsFrom(db, asked));
    usage := AddChanges(usage, RowsInto(db, asked));
    forall w | w in asked ensures usage[w] == UsageOf(db, w) {
      EditCountedOnce(db, w);
    }
  }

  method CountBookings(db: Db, asked: set<WindowId>) returns (usage: map<WindowId, Usage>)
    ensures usage.Keys == asked
    ensures forall w :: w in usage ==> usage[w] == Usage(|BookingsOf(db, w)|, |ActiveOf(db, w)|, 0)
  {
    usage := map w | w in asked :: UNUSED;
    var totals := RowsBooked(db, asked);
    var todo := totals.Keys;
    while todo != {}
      invariant todo <= totals.Keys && usage.Keys == asked
      invariant forall w :: w in asked && w !in todo && w in totals ==>
        usage[w] == Usage(totals[w], |ActiveOf(db, w)|, 0)
      invariant forall w :: w in asked && (w in todo || w !in totals) ==> usage[w] == UNUSED
    {
      var w :| w in todo;
      usage := usage[w := usage[w].(bookings := totals[w], active := |ActiveOf(db, w)|)];
      todo := todo - {w};
    }
    forall w | w in asked ensures usage[w] == Usage(|BookingsOf(db, w)|, |ActiveOf(db, w)|, 0) {
      if w !in totals {
        assert BookingsOf(db, w) == {};
        assert ActiveOf(db, w) <= BookingsOf(db, w);
      }
    }
  }

  method AddChanges(before: map<WindowId, Usage>, rows: map<WindowId, nat>) returns (usage: map<WindowId, Usage>)
    requires rows.Keys <= before.Keys
    ensures usage.Keys == before.Keys
    ensures forall w :: w in usage ==>
      usage[w] == before[w].(changes := before[w].changes + if w in rows then rows[w] else 0)
  {
    usage := before;
    var todo := rows.Keys;
    while todo != {}
      invariant todo <= rows.Keys && usage.Keys == before.Keys
      invariant forall w :: w in usage ==>
        usage[w] == before[w].(changes := before[w].changes + if w in rows && w !in todo then rows[w] else 0)
    {
      var w :| w in todo;
      usage := usage[w := usage[w].(changes := usage[w].changes + rows[w])];
      todo := todo - {w};
    }
  }
}
