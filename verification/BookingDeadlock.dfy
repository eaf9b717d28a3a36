/** No reachable state of the row-lock protocol has a cycle of waiting transactions. */
module BookingDeadlock {
  import opened BookingModel
  import opened BookingProtocol
  import opened BookingSafety

  /** `t` asks for a lock that `u` holds. */
  ghost predicate WaitsFor(s: State, t: TxId, u: TxId) {
    && t in s.txs && u in s.txs && t != u
    && exists lock :: Wants(s.db, s.txs[t], lock) && lock in Holds(s.txs[u])
  }

  /** How far into the lock order a transaction's next request is: keys, rooms by number, booking, probe. */
  function Stage(tx: Tx): nat {
    match tx
    case CreateKey(_, _, _, _) => 0
    case Purging(_, _) => 1
    case TakingRooms(_, _, _, _, _) => 2
    case CreateRoom(_, _, _, _) => 2
    case AdminRoom(_, _) => 2
    case TakingBooking(_, _, _) => 3
    case TakingClosing(_, _) => 3
    case Probing(_, _, _, _, _, _) => 4
    case _ => 5
  }

  function NextRoom(tx: Tx): nat {
    match tx
    case TakingRooms(_, _, _, _, todo) => if todo == [] then 0 else todo[0]
    case CreateRoom(_, room, _, _) => room
    case AdminRoom(room, _) => room
    case _ => 0
  }

  predicate WalksBehind(a: seq<(Time, Key)>, b: seq<(Time, Key)>) {
    b != [] && (a != [] ==> Sooner(a[|a| - 1], b[|b| - 1]))
  }

  predicate Before(t: Tx, u: Tx) {
    || Stage(t) < Stage(u)
    || (t.Purging? && u.Purging? && WalksBehind(t.walked, u.walked))
    || (Stage(t) == Stage(u) && NextRoom(t) < NextRoom(u))
  }

  /** Whoever holds a window row also holds the lock of that window's room. */
  lemma WindowUnderItsRoom(db: Db, tx: Tx, w: WindowId)
    requires TxInv(db, tx) && WindowLock(w) in Holds(tx)
    ensures w in db.windows && RoomLock(db.windows[w].room) in Holds(tx)
  {
    if tx.TakingDestination? || tx.Probing? || tx.Writing? { RoomsHeld(tx.req, tx.snap); }
  }

  /** A window row is only ever asked for under the lock of its room, so it is never waited for. */
  lemma WindowsNeverWait(s: State, t: TxId, u: TxId, w: WindowId)
    requires Inv(s) && t in s.txs && u in s.txs && t != u
    requires Wants(s.db, s.txs[t], WindowLock(w))
    ensures WindowLock(w) !in Holds(s.txs[u])
  {
    var tx := s.txs[t];
    if tx.TakingSource? || tx.TakingDestination? || tx.Probing? { RoomsHeld(tx.req, tx.snap); }
    assert RoomLock(s.db.windows[w].room) in Holds(tx);
    if WindowLock(w) in Holds(s.txs[u]) { WindowUnderItsRoom(s.db, s.txs[u], w); }
  }

  /** A transaction that waits is asking for a key, a room or a booking. */
  lemma WaiterStage(s: State, t: TxId, u: TxId)
    requires Inv(s) && WaitsFor(s, t, u)
    ensures Stage(s.txs[t]) <= 4
  {
    var lock :| Wants(s.db, s.txs[t], lock) && lock in Holds(s.txs[u]);
    if Stage(s.txs[t]) == 5 {
      assert lock.WindowLock?;
      WindowsNeverWait(s, t, u, lock.w);
    }
  }

  /** Rooms already taken come before the rooms still to take. */
  lemma RoomsTakenInOrder(db: Db, tx: Tx, r: RoomId)
    requires TxInv(db, tx) && tx.TakingRooms? && RoomLock(r) in Holds(tx)
    ensures r < NextRoom(tx)
  {
    var all := RoomsOf(tx.req, tx.snap);
    var i :| 0 <= i < |tx.got| && tx.got[i] == r;
    assert all[i] == r && all[|tx.got|] == tx.todo[0];
  }

  /** The booking a probe waits for belongs to a room the prober holds; its holder has no room to wait with. */
  lemma ProbeMeetsNoWaiter(s: State, t: TxId, u: TxId, c: BookingId)
    requires Inv(s) && t in s.txs && u in s.txs && t != u && s.txs[t].Probing?
    requires Wants(s.db, s.txs[t], BookingLock(c)) && BookingLock(c) in Holds(s.txs[u])
    ensures !s.txs[u].Probing?
  {
    var tx, ux := s.txs[t], s.txs[u];
    RoomsHeld(tx.req, tx.snap);
    if ux.Probing? { RoomsHeld(ux.req, ux.snap); }
  }

  /** A purge waits only for a key behind which its holder has already walked. */
  lemma WalkersAscend(db: Db, tx: Tx, ux: Tx, k: Key)
    requires tx.Purging? && ux.Purging? && TxInv(db, tx) && TxInv(db, ux)
    requires Wants(db, tx, KeyLock(k)) && KeyLock(k) in Holds(ux)
    ensures WalksBehind(tx.walked, ux.walked)
  {
    var i :| 0 <= i < |ux.walked| && ux.walked[i].1 == k;
    assert ux.walked[i] == (db.keys[k].expiresAt, k);
    if i < |ux.walked| - 1 { assert Sooner(ux.walked[i], ux.walked[|ux.walked| - 1]); }
  }

  /** Along a chain of waits the lock order strictly increases. */
  lemma WaitsAscend(s: State, t: TxId, u: TxId, v: TxId)
    requires Inv(s) && WaitsFor(s, t, u) && WaitsFor(s, u, v)
    ensures Before(s.txs[t], s.txs[u])
  {
    WaiterStage(s, t, u);
    WaiterStage(s, u, v);
    var tx, ux := s.txs[t], s.txs[u];
    var lock :| Wants(s.db, tx, lock) && lock in Holds(ux);
    match lock
    case WindowLock(w) => WindowsNeverWait(s, t, u, w);
    case KeyLock(k) =>
      if tx.Purging? && ux.Purging? { WalkersAscend(s.db, tx, ux, k); }
    case RoomLock(r) =>
      if ux.TakingRooms? { RoomsTakenInOrder(s.db, ux, r); }
    case BookingLock(b) =>
      if tx.Probing? { ProbeMeetsNoWaiter(s, t, u, b); }
  }

  lemma BeforeTransitive(t: Tx, u: Tx, v: Tx)
    requires Before(t, u) && Before(u, v)
    ensures Before(t, v)
  {
  }

  /** Each transaction of the path waits for the next one. */
  ghost predicate WaitChain(s: State, path: seq<TxId>) {
    |path| >= 2 ==> WaitsFor(s, path[0], path[1]) && WaitChain(s, path[1..])
  }

  lemma {:induction false} ChainGrows(s: State, path: seq<TxId>, u: TxId)
    requires WaitChain(s, path) && path != [] && WaitsFor(s, path[|path| - 1], u)
    ensures WaitChain(s, path + [u])
  {
    if |path| == 1 {
      assert (path + [u])[1..] == [u];
    } else {
      ChainGrows(s, path[1..], u);
      assert (path + [u])[1..] == path[1..] + [u];
    }
  }

  /** A waiter that is itself waited for comes strictly later in the lock order. */
  ghost predicate WaitsOrdered(s: State) {
    forall t, u, v :: WaitsFor(s, t, u) && WaitsFor(s, u, v) ==> Before(s.txs[t], s.txs[u])
  }

  lemma {:induction false} ChainAscends(s: State, path: seq<TxId>)
    requires WaitsOrdered(s) && |path| >= 3 && WaitChain(s, path)
    ensures path[0] in s.txs && path[|path| - 2] in s.txs && Before(s.txs[path[0]], s.txs[path[|path| - 2]])
  {
    var rest := path[1..];
    assert rest[0] == path[1] && rest[1] == path[2];
    assert WaitsFor(s, path[0], path[1]) && WaitsFor(s, path[1], path[2]);
    if |path| > 3 {
      ChainAscends(s, rest);
      BeforeTransitive(s.txs[path[0]], s.txs[path[1]], s.txs[path[|path| - 2]]);
    }
  }

  /** In every reachable state, following waits never leads back to where it began. */
  lemma NoWaitCycle(rooms: map<RoomId, bool>, run: Run, path: seq<TxId>)
    requires ValidRun(Start(rooms), run) && |path| >= 2
    requires WaitChain(After(Start(rooms), run), path)
    ensures path[0] != path[|path| - 1]
  {
    var s := After(Start(rooms), run);
    RunKeeps(Start(rooms), run);
    forall t, u, v | WaitsFor(s, t, u) && WaitsFor(s, u, v) ensures Before(s.txs[t], s.txs[u]) {
      WaitsAscend(s, t, u, v);
    }
    CycleImpossible(s, path);
  }

  lemma CycleImpossible(s: State, path: seq<TxId>)
    requires WaitsOrdered(s) && |path| >= 2 && WaitChain(s, path)
    ensures path[0] != path[|path| - 1]
  {
    if path[0] == path[|path| - 1] {
      // Going round once more passes the starting transaction strictly later in the lock order.
      ChainGrows(s, path, path[1]);
      ChainAscends(s, path + [path[1]]);
    }
  }
}
