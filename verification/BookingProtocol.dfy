/**
 * Every booking and room-time transaction, and the purge of expired idempotency keys, cut at each locking read.
 *
 * A transaction is its program counter together with what it has read so far. The row locks it
 * holds follow from that, so a lock can be taken when no other transaction holds it. Rows read
 * under a lock are copied; the write and the commit that releases every lock are one step, because
 * nothing a transaction writes is visible before it commits.
 */
module BookingProtocol {
  import opened Options
  import opened BookingModel
  import opened RoomTimePolicy

  type TxId = nat

  datatype Lock = KeyLock(k: Key) | RoomLock(r: RoomId) | BookingLock(b: BookingId) | WindowLock(w: WindowId)

  /** What an approval or an edit read before it held any lock. */
  datatype Snapshot = Snapshot(window: WindowId, room: RoomId, version: nat)

  datatype Request =
    | Approve
    | EditStay(expected: nat, room: Option<RoomId>, checkIn: Option<Day>, checkOut: Option<Day>)

  datatype Closing = Reject | CancelOwn | CancelAdmin {
    function Target(): Status {
      match this case Reject => Rejected case CancelOwn => CancelledByUser case CancelAdmin => CancelledByAdmin
    }
    predicate From(s: Status) { s.Pending? || (CancelAdmin? && s.Confirmed?) }
  }

  datatype WindowOp =
    | AddWindow(next: Window)
    | ChangeWindow(w: WindowId, from: Option<Day>, to: Option<Day>, active: Option<bool>)
    | RemoveWindow(w: WindowId)

  datatype Tx =
    | TakingRooms(req: Request, b: BookingId, snap: Snapshot, got: seq<RoomId>, todo: seq<RoomId>)
    | TakingBooking(req: Request, b: BookingId, snap: Snapshot)
    | TakingSource(req: Request, b: BookingId, snap: Snapshot, row: Booking)
    | TakingDestination(req: Request, b: BookingId, snap: Snapshot, row: Booking, stay: Stay)
    | Probing(req: Request, b: BookingId, snap: Snapshot, row: Booking, stay: Stay, window: WindowId)
    | Writing(req: Request, b: BookingId, snap: Snapshot, row: Booking, stay: Stay, window: WindowId)
    | TakingClosing(kind: Closing, b: BookingId)
    | WritingClosing(kind: Closing, b: BookingId, row: Booking)
    | CreateKey(key: Key, room: RoomId, stay: Stay, price: Price)
    | CreateRoom(key: Key, room: RoomId, stay: Stay, price: Price)
    | CreateWindow(key: Key, room: RoomId, stay: Stay, price: Price)
    | CreateWriting(key: Key, room: RoomId, stay: Stay, price: Price, window: WindowId)
    | AdminRoom(room: RoomId, op: WindowOp)
    | AdminWindow(room: RoomId, op: WindowOp)
    | AdminCounting(room: RoomId, op: WindowOp, current: Window)
    | AdminProbing(room: RoomId, op: WindowOp, current: Window, next: Window)
    | AdminWriting(room: RoomId, op: WindowOp, current: Window, next: Window)
    | AdminRemoving(room: RoomId, w: WindowId)
    | Purging(now: Time, walked: seq<(Time, Key)>)

  datatype State = State(db: Db, txs: map<TxId, Tx>)

  function Destination(req: Request, snap: Snapshot): RoomId {
    match req case Approve => snap.room case EditStay(_, room, _, _) => OrElse(room, snap.room)
  }

  function RoomsOf(req: Request, snap: Snapshot): seq<RoomId> {
    OrderedUniqueRoomIds([snap.room, Destination(req, snap)])
  }

  function RoomLocks(rooms: seq<RoomId>): set<Lock> { set r | r in rooms :: RoomLock(r) }

  /** The window row an administrator addresses; adding one addresses none. */
  function Addressed(op: WindowOp): set<Lock> {
    match op
    case AddWindow(_) => {}
    case ChangeWindow(w, _, _, _) => {WindowLock(w)}
    case RemoveWindow(w) => {WindowLock(w)}
  }

  function Holds(tx: Tx): set<Lock> {
    match tx
    case TakingRooms(_, _, _, got, _) => RoomLocks(got)
    case TakingBooking(req, _, snap) => RoomLocks(RoomsOf(req, snap))
    case TakingSource(req, b, snap, _) => RoomLocks(RoomsOf(req, snap)) + {BookingLock(b)}
    case TakingDestination(req, b, snap, row, _) =>
      RoomLocks(RoomsOf(req, snap)) + {BookingLock(b), WindowLock(row.window)}
    case Probing(req, b, snap, row, _, window) =>
      RoomLocks(RoomsOf(req, snap)) + {BookingLock(b), WindowLock(row.window), WindowLock(window)}
    case Writing(req, b, snap, row, _, window) =>
      RoomLocks(RoomsOf(req, snap)) + {BookingLock(b), WindowLock(row.window), WindowLock(window)}
    case TakingClosing(_, _) => {}
    case WritingClosing(_, b, _) => {BookingLock(b)}
    case CreateKey(_, _, _, _) => {}
    case CreateRoom(key, _, _, _) => {KeyLock(key)}
    case CreateWindow(key, room, _, _) => {KeyLock(key), RoomLock(room)}
    case CreateWriting(key, room, _, _, window) => {KeyLock(key), RoomLock(room), WindowLock(window)}
    case AdminRoom(_, _) => {}
    case AdminWindow(room, _) => {RoomLock(room)}
    case AdminCounting(room, op, _) => {RoomLock(room)} + Addressed(op)
    case AdminProbing(room, op, _, _) => {RoomLock(room)} + Addressed(op)
    case AdminWriting(room, op, _, _) => {RoomLock(room)} + Addressed(op)
    case AdminRemoving(room, w) => {RoomLock(room), WindowLock(w)}
    case Purging(_, got) => set i | 0 <= i < |got| :: KeyLock(got[i].1)
  }

  predicate Sooner(a: (Time, Key), b: (Time, Key)) { a.0 < b.0 || (a.0 == b.0 && a.1 < b.1) }

  /** The bounded delete walks expired keys by expiry and then id, locking each as it comes to it. */
  predicate Purgeable(db: Db, now: Time, got: seq<(Time, Key)>, k: Key) {
    && k in db.keys && db.keys[k].expiresAt <= now
    && (got != [] ==> Sooner(got[|got| - 1], (db.keys[k].expiresAt, k)))
  }

  /** A lock the transaction's next locking read asks for. */
  predicate Wants(db: Db, tx: Tx, lock: Lock) {
    match tx
    case TakingRooms(_, _, _, _, todo) => todo != [] && lock == RoomLock(todo[0])
    case TakingBooking(_, b, _) => lock == BookingLock(b)
    case TakingSource(_, _, snap, row) =>
      lock == WindowLock(row.window) && row.window in db.windows && db.windows[row.window].room == snap.room
    case TakingDestination(req, _, snap, _, stay) =>
      lock.WindowLock? && lock.w in db.windows && db.windows[lock.w].room == Destination(req, snap)
      && db.windows[lock.w].Fits(stay)
    case Probing(req, b, snap, _, stay, _) =>
      // The probe joins bookings to windows, so it locks both rows of a conflict.
      if lock.BookingLock? then Conflicts(db, Destination(req, snap), b, stay, lock.b)
      else lock.WindowLock? && lock.w in db.windows && db.windows[lock.w].room == Destination(req, snap)
    case Writing(_, _, _, _, _, _) => false
    case TakingClosing(_, b) => lock == BookingLock(b)
    case WritingClosing(_, _, _) => false
    case CreateKey(key, _, _, _) => lock == KeyLock(key)
    case CreateRoom(_, room, _, _) => lock == RoomLock(room)
    case CreateWindow(_, room, stay, _) =>
      lock.WindowLock? && lock.w in db.windows && db.windows[lock.w].room == room && db.windows[lock.w].Fits(stay)
    case CreateWriting(_, _, _, _, _) => false
    case AdminRoom(room, _) => lock == RoomLock(room)
    case AdminWindow(room, op) =>
      lock in Addressed(op) && lock.WindowLock? && lock.w in db.windows && db.windows[lock.w].room == room
    case AdminCounting(_, _, _) => false
    case AdminProbing(room, _, _, _) =>
      lock.WindowLock? && lock.w in db.windows && db.windows[lock.w].room == room
    case AdminWriting(_, _, _, _) => false
    case AdminRemoving(_, _) => false
    case Purging(now, got) => lock.KeyLock? && Purgeable(db, now, got, lock.k)
  }

  predicate Free(s: State, t: TxId, lock: Lock) {
    forall u :: u in s.txs && u != t ==> lock !in Holds(s.txs[u])
  }

  datatype Event =
    | BeginApprove(b: BookingId)
    | BeginEdit(b: BookingId, req: Request)
    | TakeRoom
    | TakeBooking
    | TakeSource(today: Day)
    | TakeDestination(w: WindowId)
    | Probe
    | Write
    | BeginClosing(kind: Closing, b: BookingId)
    | TakeClosing
    | WriteClosing
    | BeginCreate(key: Key, room: RoomId, stay: Stay, price: Price)
    | TakeKey(today: Day)
    | CreateTakeRoom
    | CreateTakeWindow(w: WindowId)
    | CreateWrite(b: BookingId, expiresAt: Time)
    | BeginAdmin(room: RoomId, op: WindowOp)
    | AdminTakeRoom
    | AdminTakeWindow
    | AdminCount
    | AdminProbe
    | AdminWrite(w: WindowId)
    | BeginPurge(now: Time)
    | PurgeTake(k: Key)
    | PurgeCommit
    | Quit

  function EditedStay(req: Request, row: Booking): Stay
    requires req.EditStay?
  {
    Stay(OrElse(req.checkIn, row.stay.checkIn), OrElse(req.checkOut, row.stay.checkOut))
  }

  function NextWindow(op: WindowOp, current: Window): Window
    requires op.ChangeWindow?
  {
    Window(current.room, OrElse(op.from, current.from), OrElse(op.to, current.to), OrElse(op.active, current.active))
  }

  /** The booking row an approval or an edit saves. */
  function Saved(tx: Tx): Booking
    requires tx.Writing?
  {
    if tx.req.Approve? then tx.row.(status := Confirmed, version := tx.row.version + 1)
    else tx.row.(window := tx.window, stay := tx.stay, version := tx.row.version + 1)
  }

  /** A begun transaction's next step, and whether its locking read or its checks let it through. */
  ghost predicate Enabled(s: State, t: TxId, e: Event) {
    if t !in s.txs then
      match e
      case BeginApprove(b) => b in s.db.bookings && s.db.bookings[b].window in s.db.windows
      case BeginEdit(b, req) =>
        req.EditStay? && b in s.db.bookings && s.db.bookings[b].window in s.db.windows
        && s.db.bookings[b].version == req.expected
      case BeginClosing(_, _) => true
      case BeginCreate(_, _, _, _) => true
      case BeginPurge(_) => true
      case BeginAdmin(room, op) => op.AddWindow? ==> op.next.room == room && op.next.from < op.next.to
      case _ => false
    else EnabledIn(s, t, s.txs[t], e)
  }

  ghost predicate EnabledIn(s: State, t: TxId, tx: Tx, e: Event) {
    var db := s.db;
    match (tx, e)
    case (_, Quit) => true
    case (TakingRooms(_, _, _, _, todo), TakeRoom) => todo != [] && todo[0] in db.rooms && Free(s, t, RoomLock(todo[0]))
    case (TakingBooking(req, b, snap), TakeBooking) =>
      && b in db.bookings && Free(s, t, BookingLock(b))
      && var row := db.bookings[b];
      row.window == snap.window &&
      (if req.Approve? then row.version == snap.version && row.status.Pending? else row.version == req.expected)
    case (TakingSource(req, b, snap, row), TakeSource(today)) =>
      && row.window in db.windows && db.windows[row.window].room == snap.room && Free(s, t, WindowLock(row.window))
      && (if req.Approve? then db.windows[row.window].Fits(row.stay)
          else
            var stay := EditedStay(req, row);
            && row.status.Live()
            && (Destination(req, snap) != snap.room || stay != row.stay)
            && stay.Valid() && stay.checkIn >= today
            && Destination(req, snap) in db.rooms && db.rooms[Destination(req, snap)])
    case (TakingDestination(req, b, snap, row, stay), TakeDestination(w)) =>
      FirstFitting(db, Destination(req, snap), stay, w) && Free(s, t, WindowLock(w))
    case (Probing(req, b, snap, row, stay, w), Probe) => NoConflict(db, Destination(req, snap), b, stay)
    case (Writing(_, _, _, _, _, _), Write) => true
    case (TakingClosing(kind, b), TakeClosing) =>
      b in db.bookings && Free(s, t, BookingLock(b)) && kind.From(db.bookings[b].status)
    case (WritingClosing(_, _, row), WriteClosing) => row.window in db.windows
    case (CreateKey(key, room, stay, _), TakeKey(today)) =>
      key !in db.keys && Free(s, t, KeyLock(key)) && stay.Valid() && stay.checkIn >= today
    case (CreateRoom(_, room, _, _), CreateTakeRoom) => room in db.rooms && db.rooms[room] && Free(s, t, RoomLock(room))
    case (CreateWindow(_, room, stay, _), CreateTakeWindow(w)) =>
      FirstFitting(db, room, stay, w) && Free(s, t, WindowLock(w))
    case (CreateWriting(_, _, _, price, _), CreateWrite(b, _)) => b !in db.bookings && price.amount <= MAX_SAFE_INTEGER
    case (AdminRoom(room, _), AdminTakeRoom) => room in db.rooms && Free(s, t, RoomLock(room))
    case (AdminWindow(room, op), AdminTakeWindow) =>
      !op.AddWindow? && op.w in db.windows && db.windows[op.w].room == room && Free(s, t, WindowLock(op.w))
    case (AdminCounting(_, op, current), AdminCount) =>
      (op.ChangeWindow? && UpdateAllowed(current, NextWindow(op, current), UsageOf(db, op.w)))
      || (op.RemoveWindow? && DeleteAllowed(UsageOf(db, op.w)))
    case (AdminProbing(_, op, _, next), AdminProbe) => WindowFree(db, next, if op.AddWindow? then None else Some(op.w))
    case (AdminWriting(_, op, _, _), AdminWrite(w)) => if op.AddWindow? then w !in db.windows else w == op.w
    case (AdminRemoving(_, w), AdminWrite(v)) => v == w
    case (Purging(now, got), PurgeTake(k)) => Purgeable(db, now, got, k) && Free(s, t, KeyLock(k))
    case (Purging(_, _), PurgeCommit) => true
    case _ => false
  }

  function Begun(db: Db, e: Event): Tx
    requires e.BeginApprove? || e.BeginEdit? || e.BeginClosing? || e.BeginCreate? || e.BeginAdmin? || e.BeginPurge?
    requires e.BeginApprove? || e.BeginEdit? ==> e.b in db.bookings && db.bookings[e.b].window in db.windows
  {
    match e
    case BeginApprove(b) =>
      var snap := Snapshot(db.bookings[b].window, db.windows[db.bookings[b].window].room, db.bookings[b].version);
      TakingRooms(Approve, b, snap, [], RoomsOf(Approve, snap))
    case BeginEdit(b, req) =>
      var snap := Snapshot(db.bookings[b].window, db.windows[db.bookings[b].window].room, db.bookings[b].version);
      TakingRooms(req, b, snap, [], RoomsOf(req, snap))
    case BeginClosing(kind, b) => TakingClosing(kind, b)
    case BeginCreate(key, room, stay, price) => CreateKey(key, room, stay, price)
    case BeginAdmin(room, op) => AdminRoom(room, op)
    case BeginPurge(now) => Purging(now, [])
  }

  /** The transaction after a step that neither writes nor ends it. */
  function Advanced(db: Db, tx: Tx, e: Event): Tx {
    match (tx, e)
    case (TakingRooms(req, b, snap, got, todo), TakeRoom) =>
      if |todo| <= 1 then TakingBooking(req, b, snap)
      else TakingRooms(req, b, snap, got + [todo[0]], todo[1..])
    case (TakingBooking(req, b, snap), TakeBooking) =>
      if b in db.bookings then TakingSource(req, b, snap, db.bookings[b]) else tx
    case (TakingSource(req, b, snap, row), TakeSource(_)) =>
      if req.Approve? then Probing(req, b, snap, row, row.stay, row.window)
      else TakingDestination(req, b, snap, row, EditedStay(req, row))
    case (TakingDestination(req, b, snap, row, stay), TakeDestination(w)) =>
      if row.status.Confirmed? then Probing(req, b, snap, row, stay, w) else Writing(req, b, snap, row, stay, w)
    case (Probing(req, b, snap, row, stay, w), Probe) => Writing(req, b, snap, row, stay, w)
    case (TakingClosing(kind, b), TakeClosing) =>
      if b in db.bookings then WritingClosing(kind, b, db.bookings[b]) else tx
    case (CreateKey(key, room, stay, price), TakeKey(_)) => CreateRoom(key, room, stay, price)
    case (CreateRoom(key, room, stay, price), CreateTakeRoom) => CreateWindow(key, room, stay, price)
    case (CreateWindow(key, room, stay, price), CreateTakeWindow(w)) => CreateWriting(key, room, stay, price, w)
    case (AdminRoom(room, op), AdminTakeRoom) =>
      if op.AddWindow? then AdminProbing(room, op, op.next, op.next) else AdminWindow(room, op)
    case (AdminWindow(room, op), AdminTakeWindow) =>
      if !op.AddWindow? && op.w in db.windows then AdminCounting(room, op, db.windows[op.w]) else tx
    case (AdminCounting(room, op, current), AdminCount) =>
      if op.ChangeWindow? then AdminProbing(room, op, current, NextWindow(op, current))
      else if op.RemoveWindow? then AdminRemoving(room, op.w) else tx
    case (AdminProbing(room, op, current, next), AdminProbe) => AdminWriting(room, op, current, next)
    case (Purging(now, got), PurgeTake(k)) =>
      if k in db.keys then Purging(now, got + [(db.keys[k].expiresAt, k)]) else tx
    case _ => tx
  }

  /** The lifecycle row appended to a booking's stream, in the same transaction as the change. */
  function Recorded(db: Db, b: BookingId, after: Booking, room: RoomId, from: Option<Status>, previous: Option<Place>)
    : map<BookingId, seq<Change>>
  {
    var change := Change(after.version, from, after.status, Place(room, after.stay), after.price, previous);
    db.stream[b := (if b in db.stream then db.stream[b] else []) + [change]]
  }

  predicate Commits(tx: Tx, e: Event) {
    (tx.Writing? && e.Write?) || (tx.WritingClosing? && e.WriteClosing?) || (tx.CreateWriting? && e.CreateWrite?)
    || ((tx.AdminWriting? || tx.AdminRemoving?) && e.AdminWrite?) || (tx.Purging? && e.PurgeCommit?)
  }

  function KeysOf(got: seq<(Time, Key)>): set<Key> { set i | 0 <= i < |got| :: got[i].1 }

  /** The tables after a committing step. The room an approval or an edit reports is the one it locked. */
  function Committed(db: Db, tx: Tx, e: Event): Db
    requires Commits(tx, e)
    requires tx.WritingClosing? ==> tx.row.window in db.windows
  {
    match tx
    case Writing(req, b, snap, row, stay, window) =>
      var after := Saved(tx);
      var previous := if req.Approve? then None else Some(Place(snap.room, row.stay));
      db.(bookings := db.bookings[b := after],
          edits := if req.Approve? then db.edits else db.edits + [Edit(row.window, window)],
          stream := Recorded(db, b, after, Destination(req, snap), Some(row.status), previous))
    case WritingClosing(kind, b, row) =>
      var after := row.(status := kind.Target(), version := row.version + 1);
      db.(bookings := db.bookings[b := after],
          stream := Recorded(db, b, after, db.windows[row.window].room, Some(row.status), None))
    case CreateWriting(key, room, stay, price, window) =>
      var after := Booking(window, stay, Pending, 1, price);
      db.(bookings := db.bookings[e.b := after], keys := db.keys[key := KeyUse(e.b, e.expiresAt)],
          stream := Recorded(db, e.b, after, room, None, None))
    case AdminWriting(_, _, _, next) => db.(windows := db.windows[e.w := next])
    case AdminRemoving(_, w) => db.(windows := db.windows - {w})
    case Purging(_, got) => db.(keys := db.keys - KeysOf(got))
  }

  ghost function Apply(s: State, t: TxId, e: Event): State
    requires Enabled(s, t, e)
  {
    if t !in s.txs then s.(txs := s.txs[t := Begun(s.db, e)])
    else if e.Quit? then s.(txs := s.txs - {t})
    else if Commits(s.txs[t], e) then State(Committed(s.db, s.txs[t], e), s.txs - {t})
    else s.(txs := s.txs[t := Advanced(s.db, s.txs[t], e)])
  }

  /** A run: which transaction took which step. */
  type Run = seq<(TxId, Event)>

  ghost predicate ValidRun(s: State, run: Run)
    decreases |run|
  {
    run == [] || (Enabled(s, run[0].0, run[0].1) && ValidRun(Apply(s, run[0].0, run[0].1), run[1..]))
  }

  ghost function After(s: State, run: Run): State
    requires ValidRun(s, run)
    decreases |run|
  {
    if run == [] then s else After(Apply(s, run[0].0, run[0].1), run[1..])
  }
}
