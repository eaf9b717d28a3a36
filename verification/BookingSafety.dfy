/** What every interleaving of the booking transactions keeps. */
module BookingSafety {
  import opened Options
  import opened BookingModel
  import opened RoomTimePolicy
  import opened BookingProtocol

  /** What a transaction relies on: its copies are the stored rows, and its checks still hold. */
  ghost predicate TxInv(db: Db, tx: Tx) {
    match tx
    case TakingRooms(req, _, snap, got, todo) => todo != [] && got + todo == RoomsOf(req, snap)
    case TakingBooking(req, b, snap) => true
    case TakingSource(req, b, snap, row) =>
      b in db.bookings && db.bookings[b] == row && (req.Approve? ==> row.status.Pending?)
    case TakingDestination(req, b, snap, row, stay) =>
      && b in db.bookings && db.bookings[b] == row && req.EditStay?
      && row.window in db.windows && db.windows[row.window].room == snap.room
      && row.status.Live() && stay.Valid()
    case Probing(req, b, snap, row, stay, w) => Chosen(db, tx)
    case Writing(req, b, snap, row, stay, w) =>
      Chosen(db, tx) && (req.Approve? || row.status.Confirmed? ==> NoConflict(db, Destination(req, snap), b, stay))
    case WritingClosing(kind, b, row) => b in db.bookings && db.bookings[b] == row && kind.From(row.status)
    case CreateRoom(key, _, stay, _) => stay.Valid() && key !in db.keys
    case CreateWindow(key, _, stay, _) => stay.Valid() && key !in db.keys
    case CreateWriting(key, room, stay, _, w) =>
      stay.Valid() && key !in db.keys && w in db.windows && db.windows[w].room == room && db.windows[w].Fits(stay)
    case AdminRoom(room, op) => op.AddWindow? ==> op.next.room == room && op.next.from < op.next.to
    case AdminWindow(room, op) => !op.AddWindow?
    case AdminCounting(room, op, current) =>
      !op.AddWindow? && op.w in db.windows && db.windows[op.w] == current && current.room == room
    case AdminProbing(room, op, current, next) => Replaceable(db, room, op, current, next)
    case AdminWriting(room, op, current, next) =>
      Replaceable(db, room, op, current, next) && WindowFree(db, next, if op.AddWindow? then None else Some(op.w))
    case AdminRemoving(room, w) => w in db.windows && db.windows[w].room == room && UsageOf(db, w).bookings == 0
    case Purging(now, got) => Walked(db, now, got)
    case _ => true
  }

  /** Expired keys, locked in the order of the walk. */
  ghost predicate Walked(db: Db, now: Time, got: seq<(Time, Key)>) {
    && (forall i :: 0 <= i < |got| ==> got[i].1 in db.keys && db.keys[got[i].1].expiresAt == got[i].0 <= now)
    && forall i, j :: 0 <= i < j < |got| ==> Sooner(got[i], got[j])
  }

  /** A booking row held under its lock, and a held window of the destination that fits the stay. */
  ghost predicate Chosen(db: Db, tx: Tx)
    requires tx.Probing? || tx.Writing?
  {
    && tx.b in db.bookings && db.bookings[tx.b] == tx.row
    && tx.row.window in db.windows && db.windows[tx.row.window].room == tx.snap.room
    && tx.window in db.windows && db.windows[tx.window].room == Destination(tx.req, tx.snap)
    && db.windows[tx.window].Fits(tx.stay)
    && tx.stay.Valid() && tx.row.status.Live()
    && (tx.req.Approve? ==> tx.row.status.Pending? && tx.window == tx.row.window && tx.stay == tx.row.stay)
  }

  ghost predicate Replaceable(db: Db, room: RoomId, op: WindowOp, current: Window, next: Window) {
    && !op.RemoveWindow? && next.room == room && next.from < next.to
    && (op.ChangeWindow? ==>
          && op.w in db.windows && db.windows[op.w] == current && current.room == room
          && (current.from != next.from || current.to != next.to ==> UsageOf(db, op.w).bookings == 0)
          && (current.active && !next.active ==> UsageOf(db, op.w).active == 0))
  }

  /** Two distinct confirmed bookings of one room never overlap. */
  ghost predicate NoDoubleBooking(db: Db) {
    forall b, c :: b in db.bookings && c in db.bookings && b != c && RoomOf(db, b) == RoomOf(db, c) != None ==>
      db.bookings[b].status.Confirmed? && db.bookings[c].status.Confirmed? ==>
        !Overlaps(db.bookings[b].stay, db.bookings[c].stay)
  }

  /** Every booking names a stored window, and a live one an active window that contains its stay. */
  ghost predicate Housed(db: Db) {
    forall b :: b in db.bookings ==>
      && db.bookings[b].stay.Valid()
      && db.bookings[b].window in db.windows
      && (db.bookings[b].status.Live() ==> db.windows[db.bookings[b].window].Fits(db.bookings[b].stay))
  }

  /** Active windows of one room never share a day. */
  ghost predicate WindowsApart(db: Db) {
    forall v, w :: v in db.windows && w in db.windows && v != w && db.windows[v].room == db.windows[w].room ==>
      db.windows[v].active && db.windows[w].active ==> !db.windows[v].Meets(db.windows[w])
  }

  // ---- the lifecycle stream of one booking ----

  /** The status pairs a change may carry. */
  predicate Transition(from: Option<Status>, to: Status) {
    match from
    case None => to.Pending?
    case Some(Pending) => to.Pending? || to.Confirmed? || to.Rejected? || to.CancelledByUser? || to.CancelledByAdmin?
    case Some(Confirmed) => to.Confirmed? || to.CancelledByAdmin?
    case Some(_) => false
  }

  /** Row `i` says version `i + 1`, starts where row `i - 1` ended, and is a change the stream may carry. */
  predicate Follows(rows: seq<Change>, i: nat)
    requires i < |rows|
  {
    var row := rows[i];
    && row.version == i + 1
    && Transition(row.from, row.to)
    && row.place.stay.Valid() && row.price.amount <= MAX_SAFE_INTEGER
    && (i == 0 <==> row.from == None)
    && (i > 0 ==> row.from == Some(rows[i - 1].to) && row.price == rows[i - 1].price)
    && (row.previous != None <==> row.from == Some(row.to))
    && (i > 0 && row.previous != None ==> row.previous == Some(rows[i - 1].place))
    && (i > 0 && row.previous == None ==> row.place == rows[i - 1].place)
  }

  ghost predicate Chained(rows: seq<Change>) {
    rows != [] && forall i :: 0 <= i < |rows| ==> Follows(rows, i)
  }

  /** A stream whose last row is the booking, in the room it is in. */
  ghost predicate Tells(rows: seq<Change>, row: Booking, room: Option<RoomId>) {
    && Chained(rows) && |rows| == row.version
    && var last := rows[|rows| - 1];
    last.to == row.status && last.price == row.price && last.place.stay == row.stay && room == Some(last.place.room)
  }

  /** Every booking has a stream, and the stream tells the booking. */
  ghost predicate Mirrored(db: Db) {
    db.stream.Keys == db.bookings.Keys && forall b :: b in db.bookings ==>
      Tells(db.stream[b], db.bookings[b], RoomOf(db, b))
  }

  ghost predicate DbInv(db: Db) {
    NoDoubleBooking(db) && Housed(db) && WindowsApart(db) && Mirrored(db)
  }

  ghost predicate Exclusive(s: State) {
    forall t, u :: t in s.txs && u in s.txs && t != u ==> Holds(s.txs[t]) !! Holds(s.txs[u])
  }

  ghost predicate Inv(s: State) {
    DbInv(s.db) && Exclusive(s) && forall t :: t in s.txs ==> TxInv(s.db, s.txs[t])
  }

  // ---- rely and guarantee ----

  ghost predicate KeysGuarded(db: Db, db': Db, held: set<Lock>) {
    forall k :: KeyLock(k) !in held ==> (k in db'.keys <==> k in db.keys) && (k in db.keys ==>
      db'.keys[k] == db.keys[k])
  }

  /** What a transaction holding `held` may change: only rows and rooms it has locked. */
  ghost predicate Guarantee(db: Db, db': Db, held: set<Lock>) {
    && (forall w :: w in db.windows && RoomLock(db.windows[w].room) !in held ==>
          w in db'.windows && db'.windows[w] == db.windows[w])
    && (forall w :: w in db'.windows && RoomLock(db'.windows[w].room) !in held ==>
          w in db.windows && db.windows[w] == db'.windows[w])
    && (forall b :: b in db.bookings && BookingLock(b) !in held ==>
          b in db'.bookings && db'.bookings[b] == db.bookings[b])
    && (forall b :: b in db'.bookings && RoomOf(db', b).Some? && RoomLock(RoomOf(db', b).value) !in held ==>
          && b in db.bookings
          && db.bookings[b].window == db'.bookings[b].window && db.bookings[b].stay == db'.bookings[b].stay
          && (db'.bookings[b].status.Live() ==> db.bookings[b].status.Live())
          && (db'.bookings[b].status.Confirmed? ==> db.bookings[b].status.Confirmed?))
    && KeysGuarded(db, db', held)
  }

  lemma RoomsHeld(req: Request, snap: Snapshot)
    ensures RoomLock(snap.room) in RoomLocks(RoomsOf(req, snap))
    ensures RoomLock(Destination(req, snap)) in RoomLocks(RoomsOf(req, snap))
  {
    assert snap.room in RoomsOf(req, snap) && Destination(req, snap) in RoomsOf(req, snap);
  }

  lemma NoConflictStable(db: Db, db': Db, held: set<Lock>, r: RoomId, self: BookingId, stay: Stay)
    requires NoConflict(db, r, self, stay) && Guarantee(db, db', held) && RoomLock(r) !in held
    ensures NoConflict(db', r, self, stay)
  {
    forall c | c in db'.bookings && Conflicts(db', r, self, stay, c) ensures false {
      assert Conflicts(db, r, self, stay, c);
    }
  }

  lemma UsageStable(db: Db, db': Db, held: set<Lock>, w: WindowId)
    requires Guarantee(db, db', held) && w in db.windows && RoomLock(db.windows[w].room) !in held
    ensures UsageOf(db, w).bookings == 0 ==> UsageOf(db', w).bookings == 0
    ensures UsageOf(db, w).active == 0 ==> UsageOf(db', w).active == 0
  {
    forall b | b in db'.bookings && db'.bookings[b].window == w
      ensures b in db.bookings && db.bookings[b].window == w
      ensures db'.bookings[b].status.Live() ==> db.bookings[b].status.Live()
    {
      assert RoomOf(db', b) == Some(db.windows[w].room);
    }
  }

  ghost predicate Administers(tx: Tx) {
    tx.AdminCounting? || tx.AdminProbing? || tx.AdminWriting? || tx.AdminRemoving? || tx.Purging?
  }

  lemma StableAdministration(db: Db, db': Db, held: set<Lock>, tx: Tx)
    requires TxInv(db, tx) && Guarantee(db, db', held) && Holds(tx) !! held && Administers(tx)
    ensures TxInv(db', tx)
  {
    match tx
    case AdminProbing(_, op, _, _) => if op.ChangeWindow? { UsageStable(db, db', held, op.w); }
    case AdminWriting(_, op, _, _) => if op.ChangeWindow? { UsageStable(db, db', held, op.w); }
    case AdminRemoving(_, w) => UsageStable(db, db', held, w);
    case _ =>
  }

  /** Whatever a transaction relies on survives a commit by one that shares none of its locks. */
  lemma Stable(db: Db, db': Db, held: set<Lock>, tx: Tx)
    requires TxInv(db, tx) && Guarantee(db, db', held) && Holds(tx) !! held
    ensures TxInv(db', tx)
  {
    if Administers(tx) {
      StableAdministration(db, db', held, tx);
    } else if tx.TakingDestination? || tx.Probing? || tx.Writing? {
      RoomsHeld(tx.req, tx.snap);
      if tx.Writing? && (tx.req.Approve? || tx.row.status.Confirmed?) {
        NoConflictStable(db, db', held, Destination(tx.req, tx.snap), tx.b, tx.stay);
      }
    }
  }

  // ---- what each commit keeps ----

  /** Appending the row a change records keeps the booking's stream chained. */
  lemma ChainExtends(rows: seq<Change>, next: Change)
    requires rows == [] || Chained(rows)
    requires Follows(rows + [next], |rows|)
    ensures Chained(rows + [next])
  {
    var all := rows + [next];
    forall i | 0 <= i < |all| ensures Follows(all, i) {
      if i < |rows| { assert Follows(rows, i); }
    }
  }

  /** `after` is the booking's first or next row, in `room`, and the change it records says what it left. */
  ghost predicate Succeeds(db: Db, b: BookingId, after: Booking, room: RoomId, from: Option<Status>,
                           previous: Option<Place>) {
    && after.window in db.windows && db.windows[after.window].room == room && after.stay.Valid()
    && Transition(from, after.status) && (previous != None <==> from == Some(after.status))
    && (b !in db.bookings ==>
          after.version == 1 && from == None && previous == None && after.price.amount <= MAX_SAFE_INTEGER)
    && (b in db.bookings ==>
          var row := db.bookings[b];
          && after.version == row.version + 1 && from == Some(row.status) && after.price == row.price
          && (previous == None ==> after.window == row.window && after.stay == row.stay)
          && (previous != None ==> RoomOf(db, b) == Some(previous.value.room) && previous.value.stay == row.stay))
  }

  /** The recorded row continues the booking's stream. */
  lemma StreamExtends(db: Db, b: BookingId, after: Booking, room: RoomId, from: Option<Status>, previous: Option<Place>)
    requires Mirrored(db) && Succeeds(db, b, after, room, from, previous)
    ensures Tells(Recorded(db, b, after, room, from, previous)[b], after, Some(room))
  {
    var rows := if b in db.stream then db.stream[b] else [];
    var next := Change(after.version, from, after.status, Place(room, after.stay), after.price, previous);
    if b in db.bookings { assert Tells(rows, db.bookings[b], RoomOf(db, b)) && Follows(rows, |rows| - 1); }
    assert Follows(rows + [next], |rows|);
    ChainExtends(rows, next);
  }

  /** One booking row replaced by its next version, with its lifecycle row, leaves the rest alone. */
  lemma MirrorExtends(db: Db, db': Db, b: BookingId, after: Booking, room: RoomId, from: Option<Status>,
                      previous: Option<Place>)
    requires Mirrored(db) && Succeeds(db, b, after, room, from, previous)
    requires db'.windows == db.windows && db'.bookings == db.bookings[b := after]
    requires db'.stream == Recorded(db, b, after, room, from, previous)
    ensures Mirrored(db')
  {
    StreamExtends(db, b, after, room, from, previous);
    forall c | c in db'.bookings ensures Tells(db'.stream[c], db'.bookings[c], RoomOf(db', c)) {
      if c != b { assert RoomOf(db', c) == RoomOf(db, c) && Tells(db.stream[c], db.bookings[c], RoomOf(db, c)); }
    }
  }

  ghost predicate Keeps(db: Db, db': Db, tx: Tx) {
    Guarantee(db, db', Holds(tx)) && DbInv(db')
  }

  predicate SamePlace(row: Booking, after: Booking) { row.window == after.window && row.stay == after.stay }

  /** A new or replaced booking row, whose room is locked unless only its status was closed. */
  lemma BookingWritten(db: Db, db': Db, b: BookingId, after: Booking, held: set<Lock>)
    requires db'.windows == db.windows && db'.bookings == db.bookings[b := after] && after.window in db.windows
    requires b in db.bookings ==> BookingLock(b) in held
    requires
      RoomLock(db.windows[after.window].room) in held ||
      (b in db.bookings && SamePlace(db.bookings[b], after) && !after.status.Live())
    requires KeysGuarded(db, db', held)
    ensures Guarantee(db, db', held)
  {
    forall c | c in db'.bookings && c != b ensures RoomOf(db', c) == RoomOf(db, c) {
    }
  }

  /** A window row added, changed or removed under its room's lock. */
  lemma WindowWritten(db: Db, db': Db, held: set<Lock>, room: RoomId, w: WindowId)
    requires db'.bookings == db.bookings && db'.keys == db.keys && RoomLock(room) in held
    requires w in db.windows ==> db.windows[w].room == room
    requires w in db'.windows ==> db'.windows[w].room == room
    requires forall v :: v != w ==> (v in db.windows <==> v in db'.windows)
    requires forall v :: v != w && v in db.windows ==> db'.windows[v] == db.windows[v]
    ensures Guarantee(db, db', held)
  {
  }

  lemma SingleBookingApart(db: Db, db': Db, b: BookingId, after: Booking)
    requires NoDoubleBooking(db) && db'.windows == db.windows && db'.bookings == db.bookings[b := after]
    requires after.window in db.windows
    requires after.status.Confirmed? ==> NoConflict(db, db.windows[after.window].room, b, after.stay)
    ensures NoDoubleBooking(db')
  {
    var room := db.windows[after.window].room;
    forall c | c in db'.bookings && c != b ensures RoomOf(db', c) == RoomOf(db, c) {
    }
    forall c | c in db'.bookings && c != b && RoomOf(db', c) == Some(room) && after.status.Confirmed?
      && db'.bookings[c].status.Confirmed?
      ensures !Overlaps(db'.bookings[c].stay, after.stay) && !Overlaps(after.stay, db'.bookings[c].stay)
    {
      assert !Conflicts(db, room, b, after.stay, c);
    }
  }

  lemma BookingStaysHoused(db: Db, db': Db, b: BookingId, after: Booking)
    requires Housed(db) && WindowsApart(db)
    requires db'.windows == db.windows && db'.bookings == db.bookings[b := after]
    requires after.window in db.windows && after.stay.Valid()
    requires after.status.Live() ==> db.windows[after.window].Fits(after.stay)
    ensures Housed(db') && WindowsApart(db')
  {
  }

  /** One booking row moved to its next version, by a transaction entitled to write it. */
  lemma BookingKeeps(db: Db, db': Db, b: BookingId, after: Booking, room: RoomId, from: Option<Status>,
                     previous: Option<Place>, held: set<Lock>)
    requires DbInv(db)
    requires db'.windows == db.windows && db'.bookings == db.bookings[b := after]
    requires db'.stream == Recorded(db, b, after, room, from, previous)
    requires Succeeds(db, b, after, room, from, previous)
    requires after.status.Live() ==> db.windows[after.window].Fits(after.stay)
    requires after.status.Confirmed? ==> NoConflict(db, room, b, after.stay)
    requires b in db.bookings ==> BookingLock(b) in held
    requires RoomLock(room) in held ||
      (b in db.bookings && SamePlace(db.bookings[b], after) && !after.status.Live())
    requires KeysGuarded(db, db', held)
    ensures Guarantee(db, db', held) && DbInv(db')
  {
    BookingWritten(db, db', b, after, held);
    BookingStaysHoused(db, db', b, after);
    MirrorExtends(db, db', b, after, room, from, previous);
    SingleBookingApart(db, db', b, after);
  }

  lemma ApprovalKeeps(db: Db, tx: Tx)
    requires DbInv(db) && TxInv(db, tx) && tx.Writing? && tx.req.Approve?
    ensures Keeps(db, Committed(db, tx, Write), tx)
  {
    RoomsHeld(tx.req, tx.snap);
    BookingKeeps(db, Committed(db, tx, Write), tx.b, Saved(tx), tx.snap.room, Some(tx.row.status), None, Holds(tx));
  }

  lemma EditKeeps(db: Db, tx: Tx)
    requires DbInv(db) && TxInv(db, tx) && tx.Writing? && tx.req.EditStay?
    ensures Keeps(db, Committed(db, tx, Write), tx)
  {
    RoomsHeld(tx.req, tx.snap);
    BookingKeeps(db, Committed(db, tx, Write), tx.b, Saved(tx), Destination(tx.req, tx.snap), Some(tx.row.status),
                 Some(Place(tx.snap.room, tx.row.stay)), Holds(tx));
  }

  lemma ClosingKeeps(db: Db, tx: Tx)
    requires DbInv(db) && TxInv(db, tx) && tx.WritingClosing? && tx.row.window in db.windows
    ensures Keeps(db, Committed(db, tx, WriteClosing), tx)
  {
    var after := tx.row.(status := tx.kind.Target(), version := tx.row.version + 1);
    BookingKeeps(db, Committed(db, tx, WriteClosing), tx.b, after, db.windows[tx.row.window].room,
                 Some(tx.row.status), None, Holds(tx));
  }

  lemma CreateKeeps(db: Db, tx: Tx, b: BookingId, expiresAt: Time)
    requires DbInv(db) && TxInv(db, tx) && tx.CreateWriting? && b !in db.bookings && tx.price.amount <= MAX_SAFE_INTEGER
    ensures Keeps(db, Committed(db, tx, CreateWrite(b, expiresAt)), tx)
  {
    BookingKeeps(db, Committed(db, tx, CreateWrite(b, expiresAt)), b,
                 Booking(tx.window, tx.stay, Pending, 1, tx.price), tx.room,
                 None, None, Holds(tx));
  }

  /** Window changes leave every booking in its room, so bookings and streams still agree. */
  lemma RoomsUnmoved(db: Db, db': Db)
    requires Housed(db) && NoDoubleBooking(db) && Mirrored(db)
    requires db'.bookings == db.bookings && db'.stream == db.stream
    requires forall b :: b in db.bookings ==> RoomOf(db', b) == RoomOf(db, b)
    ensures NoDoubleBooking(db') && Mirrored(db')
  {
  }

  lemma WindowKeeps(db: Db, tx: Tx, w: WindowId)
    requires DbInv(db) && TxInv(db, tx) && tx.AdminWriting?
    requires if tx.op.AddWindow? then w !in db.windows else w == tx.op.w
    ensures Keeps(db, Committed(db, tx, AdminWrite(w)), tx)
  {
    var db' := Committed(db, tx, AdminWrite(w));
    WindowWritten(db, db', Holds(tx), tx.room, w);
    WindowHouses(db, tx, w);
    RoomsUnmoved(db, db');
    WindowStaysApart(db, tx, w);
  }

  lemma WindowHouses(db: Db, tx: Tx, w: WindowId)
    requires Housed(db) && TxInv(db, tx) && tx.AdminWriting?
    requires if tx.op.AddWindow? then w !in db.windows else w == tx.op.w
    ensures Housed(db.(windows := db.windows[w := tx.next]))
    ensures forall b :: b in db.bookings ==> RoomOf(db.(windows := db.windows[w := tx.next]), b) == RoomOf(db, b)
  {
  }

  lemma WindowStaysApart(db: Db, tx: Tx, w: WindowId)
    requires WindowsApart(db) && TxInv(db, tx) && tx.AdminWriting?
    requires if tx.op.AddWindow? then w !in db.windows else w == tx.op.w
    ensures WindowsApart(db.(windows := db.windows[w := tx.next]))
  {
    forall v | v in db.windows && v != w && db.windows[v].room == tx.room && db.windows[v].active && tx.next.active
      ensures !db.windows[v].Meets(tx.next) && !tx.next.Meets(db.windows[v])
    {
    }
  }

  lemma RemovalKeeps(db: Db, tx: Tx)
    requires DbInv(db) && TxInv(db, tx) && tx.AdminRemoving?
    ensures Keeps(db, Committed(db, tx, AdminWrite(tx.w)), tx)
  {
    var db' := Committed(db, tx, AdminWrite(tx.w));
    WindowWritten(db, db', Holds(tx), tx.room, tx.w);
    forall b | b in db.bookings ensures RoomOf(db', b) == RoomOf(db, b) {
    }
    RoomsUnmoved(db, db');
  }

  lemma PurgeGuarded(db: Db, tx: Tx)
    requires tx.Purging?
    ensures Guarantee(db, Committed(db, tx, PurgeCommit), Holds(tx))
  {
    assert forall k :: k in KeysOf(tx.walked) ==> KeyLock(k) in Holds(tx);
  }

  lemma PurgeKeeps(db: Db, tx: Tx)
    requires DbInv(db) && TxInv(db, tx) && tx.Purging?
    ensures Keeps(db, Committed(db, tx, PurgeCommit), tx)
  {
    var db' := Committed(db, tx, PurgeCommit);
    PurgeGuarded(db, tx);
    assert forall b :: b in db.bookings ==> RoomOf(db', b) == RoomOf(db, b);
    RoomsUnmoved(db, db');
  }

  lemma AdministrationKeeps(db: Db, tx: Tx, e: Event)
    requires DbInv(db) && TxInv(db, tx) && Commits(tx, e) && Administers(tx)
    requires tx.AdminWriting? ==> if tx.op.AddWindow? then e.w !in db.windows else e.w == tx.op.w
    requires tx.AdminRemoving? ==> e.w == tx.w
    ensures Keeps(db, Committed(db, tx, e), tx)
  {
    match tx
    case AdminWriting(_, _, _, _) => WindowKeeps(db, tx, e.w);
    case AdminRemoving(_, _) => RemovalKeeps(db, tx);
    case Purging(_, _) => PurgeKeeps(db, tx);
  }

  lemma CommitKeeps(db: Db, tx: Tx, e: Event)
    requires DbInv(db) && TxInv(db, tx) && Commits(tx, e)
    requires tx.WritingClosing? ==> tx.row.window in db.windows
    requires tx.CreateWriting? ==> e.b !in db.bookings && tx.price.amount <= MAX_SAFE_INTEGER
    requires tx.AdminWriting? ==> if tx.op.AddWindow? then e.w !in db.windows else e.w == tx.op.w
    requires tx.AdminRemoving? ==> e.w == tx.w
    ensures Keeps(db, Committed(db, tx, e), tx)
  {
    if Administers(tx) {
      AdministrationKeeps(db, tx, e);
    } else {
      match tx
      case Writing(req, _, _, _, _, _) => if req.Approve? { ApprovalKeeps(db, tx); } else { EditKeeps(db, tx); }
      case WritingClosing(_, _, _) => ClosingKeeps(db, tx);
      case CreateWriting(_, _, _, _, _) => CreateKeeps(db, tx, e.b, e.expiresAt);
    }
  }

  // ---- every step, every run ----

  ghost predicate BookingPhase(tx: Tx) {
    tx.TakingRooms? || tx.TakingBooking? || tx.TakingSource? || tx.TakingDestination? || tx.Probing?
  }

  /** The step's new state keeps its own invariant, and the locks it adds were free. */
  ghost predicate Advances(s: State, t: TxId, tx: Tx, tx': Tx) {
    TxInv(s.db, tx') && forall lock :: lock in Holds(tx') && lock !in Holds(tx) ==> Free(s, t, lock)
  }

  lemma RoomAdvance(s: State, t: TxId, e: Event)
    requires t in s.txs && TxInv(s.db, s.txs[t]) && s.txs[t].TakingRooms? && EnabledIn(s, t, s.txs[t], e) && !e.Quit?
    ensures Advances(s, t, s.txs[t], Advanced(s.db, s.txs[t], e))
  {
    var tx := s.txs[t];
    assert tx.todo == [tx.todo[0]] + tx.todo[1..];
    assert tx.got + tx.todo == tx.got + [tx.todo[0]] + tx.todo[1..];
    assert forall r :: r in RoomsOf(tx.req, tx.snap) ==> r in tx.got || r in tx.todo;
  }

  lemma BookingAdvance(s: State, t: TxId, e: Event)
    requires t in s.txs && TxInv(s.db, s.txs[t]) && BookingPhase(s.txs[t]) && EnabledIn(s, t, s.txs[t], e) && !e.Quit?
    requires Housed(s.db)
    ensures Advances(s, t, s.txs[t], Advanced(s.db, s.txs[t], e))
  {
    if s.txs[t].TakingRooms? { RoomAdvance(s, t, e); }
  }

  /** The same for creations, closings and window administration. */
  lemma OtherAdvance(s: State, t: TxId, e: Event)
    requires t in s.txs && TxInv(s.db, s.txs[t]) && !BookingPhase(s.txs[t]) && EnabledIn(s, t, s.txs[t], e)
    requires !e.Quit? && !Commits(s.txs[t], e)
    ensures Advances(s, t, s.txs[t], Advanced(s.db, s.txs[t], e))
  {
  }

  /** Only free locks were taken, so locks stay exclusive. */
  lemma StillExclusive(s: State, t: TxId, tx: Tx)
    requires Exclusive(s)
    requires forall lock :: lock in Holds(tx) && (t in s.txs ==> lock !in Holds(s.txs[t])) ==> Free(s, t, lock)
    ensures Exclusive(s.(txs := s.txs[t := tx]))
  {
  }

  lemma CommitStep(s: State, t: TxId, e: Event)
    requires Inv(s) && t in s.txs && EnabledIn(s, t, s.txs[t], e) && Commits(s.txs[t], e)
    ensures Inv(State(Committed(s.db, s.txs[t], e), s.txs - {t}))
  {
    var db' := Committed(s.db, s.txs[t], e);
    CommitKeeps(s.db, s.txs[t], e);
    forall u | u in s.txs && u != t ensures TxInv(db', s.txs[u]) {
      Stable(s.db, db', Holds(s.txs[t]), s.txs[u]);
    }
  }

  lemma BegunIsEmpty(s: State, t: TxId, e: Event)
    requires Enabled(s, t, e) && t !in s.txs
    ensures Holds(Begun(s.db, e)) == {} && TxInv(s.db, Begun(s.db, e))
  {
  }

  lemma BeginStep(s: State, t: TxId, e: Event)
    requires Inv(s) && Enabled(s, t, e) && t !in s.txs
    ensures Inv(Apply(s, t, e))
  {
    BegunIsEmpty(s, t, e);
    StillExclusive(s, t, Begun(s.db, e));
  }

  lemma AdvanceStep(s: State, t: TxId, e: Event)
    requires Inv(s) && t in s.txs && EnabledIn(s, t, s.txs[t], e) && !e.Quit? && !Commits(s.txs[t], e)
    ensures Inv(s.(txs := s.txs[t := Advanced(s.db, s.txs[t], e)]))
  {
    if BookingPhase(s.txs[t]) { BookingAdvance(s, t, e); } else { OtherAdvance(s, t, e); }
    StillExclusive(s, t, Advanced(s.db, s.txs[t], e));
  }

  lemma StepKeeps(s: State, t: TxId, e: Event)
    requires Inv(s) && Enabled(s, t, e)
    ensures Inv(Apply(s, t, e))
  {
    if t !in s.txs {
      BeginStep(s, t, e);
    } else if Commits(s.txs[t], e) {
      CommitStep(s, t, e);
    } else if !e.Quit? {
      AdvanceStep(s, t, e);
    }
  }

  /** Starting from consistent tables and no open transaction, every run keeps the invariant. */
  lemma {:induction false} RunKeeps(s: State, run: Run)
    requires Inv(s) && ValidRun(s, run)
    ensures Inv(After(s, run))
    decreases |run|
  {
    if run != [] {
      StepKeeps(s, run[0].0, run[0].1);
      RunKeeps(Apply(s, run[0].0, run[0].1), run[1..]);
    }
  }

  /** No bookings, no windows, nobody working. */
  function Start(rooms: map<RoomId, bool>): State {
    State(Db(rooms, map[], map[], [], map[], map[]), map[])
  }

  /**
   * The promise of the allocator: in every interleaving, no night of a physical room is confirmed
   * to two bookings.
   */
  lemma OneGuestPerNight(rooms: map<RoomId, bool>, run: Run, room: RoomId, night: Day, b: BookingId, c: BookingId)
    requires ValidRun(Start(rooms), run)
    requires
      var db := After(Start(rooms), run).db;
      && RoomOf(db, b) == Some(room) && db.bookings[b].status.Confirmed? && db.bookings[b].stay.Covers(night)
      && RoomOf(db, c) == Some(room) && db.bookings[c].status.Confirmed? && db.bookings[c].stay.Covers(night)
    ensures b == c
  {
    RunKeeps(Start(rooms), run);
    var db := After(Start(rooms), run).db;
    assert b in db.bookings && c in db.bookings;
    if b != c {
      OverlapIsSharedNight(db.bookings[b].stay, db.bookings[c].stay);
    }
  }

  /** Every live booking sits in a stored, active window of its room that contains its stay. */
  lemma LiveBookingsAreHoused(rooms: map<RoomId, bool>, run: Run, b: BookingId)
    requires ValidRun(Start(rooms), run)
    requires var db := After(Start(rooms), run).db; b in db.bookings && db.bookings[b].status.Live()
    ensures
      var db := After(Start(rooms), run).db;
      db.bookings[b].window in db.windows && db.windows[db.bookings[b].window].Fits(db.bookings[b].stay)
  {
    RunKeeps(Start(rooms), run);
  }

  /** At most one window of a room can hold a given stay, so "the first fitting window" is the only one. */
  lemma OneWindowPerStay(rooms: map<RoomId, bool>, run: Run, stay: Stay, v: WindowId, w: WindowId)
    requires ValidRun(Start(rooms), run) && stay.Valid()
    requires
      var db := After(Start(rooms), run).db;
      v in db.windows && w in db.windows && db.windows[v].room == db.windows[w].room
      && db.windows[v].Fits(stay) && db.windows[w].Fits(stay)
    ensures v == w
  {
    RunKeeps(Start(rooms), run);
  }

  /**
   * Every booking's lifecycle rows carry versions 1, 2, 3, ..., each starting from what the row before
   * left, and the last row is the booking as stored.
   */
  lemma StreamTellsTheStory(rooms: map<RoomId, bool>, run: Run, b: BookingId)
    requires ValidRun(Start(rooms), run) && b in After(Start(rooms), run).db.bookings
    ensures
      var db := After(Start(rooms), run).db;
      && b in db.stream && Chained(db.stream[b]) && |db.stream[b]| == db.bookings[b].version
      && var last := db.stream[b][|db.stream[b]| - 1];
      last.to == db.bookings[b].status && last.price == db.bookings[b].price
      && RoomOf(db, b) == Some(last.place.room) && last.place.stay == db.bookings[b].stay
  {
    RunKeeps(Start(rooms), run);
  }

  /** A closed booking is never written again: only its last row may be terminal. */
  lemma NothingFollowsTheEnd(rows: seq<Change>, i: nat)
    requires Chained(rows) && i < |rows| - 1
    ensures rows[i].to.Live()
  {
    assert Follows(rows, i + 1);
  }
}
