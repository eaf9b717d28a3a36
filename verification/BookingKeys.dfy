/** How often an idempotency key creates a booking, when retention forgets expired keys. */
module BookingKeys {
  import opened Options
  import opened BookingModel
  import opened BookingProtocol
  import opened BookingSafety

  function Bit(b: bool): nat { if b then 1 else 0 }

  /** The step commits a booking created under `k`. */
  predicate CreatesUnder(s: State, t: TxId, e: Event, k: Key) {
    t in s.txs && s.txs[t].CreateWriting? && e.CreateWrite? && s.txs[t].key == k
  }

  /** The step commits a purge that takes `k`. */
  predicate Purges(s: State, t: TxId, e: Event, k: Key) {
    t in s.txs && s.txs[t].Purging? && e.PurgeCommit? && k in KeysOf(s.txs[t].walked)
  }

  ghost function Creations(s: State, run: Run, k: Key): nat
    requires ValidRun(s, run)
    decreases |run|
  {
    if run == [] then 0
    else Bit(CreatesUnder(s, run[0].0, run[0].1, k)) + Creations(Apply(s, run[0].0, run[0].1), run[1..], k)
  }

  ghost function Forgotten(s: State, run: Run, k: Key): nat
    requires ValidRun(s, run)
    decreases |run|
  {
    if run == [] then 0
    else Bit(Purges(s, run[0].0, run[0].1, k)) + Forgotten(Apply(s, run[0].0, run[0].1), run[1..], k)
  }

  lemma KeyCommit(db: Db, tx: Tx, e: Event, k: Key)
    requires TxInv(db, tx) && Commits(tx, e) && (tx.WritingClosing? ==> tx.row.window in db.windows)
    ensures
      var keys := Committed(db, tx, e).keys;
      var creates, purges := tx.CreateWriting? && tx.key == k, tx.Purging? && k in KeysOf(tx.walked);
      && Bit(creates) + Bit(k in db.keys) == Bit(purges) + Bit(k in keys)
      && (purges ==> k in db.keys && db.keys[k].expiresAt <= tx.now)
      && (k in db.keys && !purges ==> keys[k] == db.keys[k])
  {
  }

  /** A creation needs the key unspent and spends it; a purge needs it spent and expired, and frees it. */
  lemma KeyStep(s: State, t: TxId, e: Event, k: Key)
    requires Inv(s) && Enabled(s, t, e)
    ensures
      var keys := Apply(s, t, e).db.keys;
      && Bit(CreatesUnder(s, t, e, k)) + Bit(k in s.db.keys) == Bit(Purges(s, t, e, k)) + Bit(k in keys)
      && (Purges(s, t, e, k) ==> k in s.db.keys && s.db.keys[k].expiresAt <= s.txs[t].now)
      && (k in s.db.keys && !Purges(s, t, e, k) ==> keys[k] == s.db.keys[k])
  {
    if t in s.txs && Commits(s.txs[t], e) { KeyCommit(s.db, s.txs[t], e, k); }
  }

  lemma {:induction false} KeysBalance(s: State, run: Run, k: Key)
    requires Inv(s) && ValidRun(s, run)
    ensures Creations(s, run, k) + Bit(k in s.db.keys) == Forgotten(s, run, k) + Bit(k in After(s, run).db.keys)
    decreases |run|
  {
    if run != [] {
      KeyStep(s, run[0].0, run[0].1, k);
      StepKeeps(s, run[0].0, run[0].1);
      KeysBalance(Apply(s, run[0].0, run[0].1), run[1..], k);
    }
  }

  /**
   * In every run a key creates one booking more than it was forgotten, or exactly as many if it is unspent at the
   * end: a second creation happens exactly when a purge came between.
   */
  lemma OneCreationPerPurge(rooms: map<RoomId, bool>, run: Run, k: Key)
    requires ValidRun(Start(rooms), run)
    ensures
      var s := Start(rooms);
      && Creations(s, run, k) == Forgotten(s, run, k) + Bit(k in After(s, run).db.keys)
      && (Forgotten(s, run, k) == 0 ==> Creations(s, run, k) <= 1)
      && (Creations(s, run, k) >= 2 ==> Forgotten(s, run, k) >= 1)
  {
    KeysBalance(Start(rooms), run, k);
  }

  /** Until it is forgotten, a spent key keeps naming the booking it created. */
  lemma {:induction false} KeyNamesItsBooking(s: State, run: Run, k: Key)
    requires Inv(s) && ValidRun(s, run) && k in s.db.keys && Forgotten(s, run, k) == 0
    ensures k in After(s, run).db.keys && After(s, run).db.keys[k] == s.db.keys[k]
    ensures Creations(s, run, k) == 0
    decreases |run|
  {
    if run != [] {
      KeyStep(s, run[0].0, run[0].1, k);
      StepKeeps(s, run[0].0, run[0].1);
      KeyNamesItsBooking(Apply(s, run[0].0, run[0].1), run[1..], k);
    }
  }

  /** No purge under way or begun in the run reads a clock at or past `time`. */
  ghost predicate ClocksBefore(s: State, run: Run, time: Time) {
    && (forall t :: t in s.txs && s.txs[t].Purging? ==> s.txs[t].now < time)
    && forall i :: 0 <= i < |run| && run[i].1.BeginPurge? ==> run[i].1.now < time
  }

  lemma ClockStep(s: State, run: Run, time: Time)
    requires run != [] && Enabled(s, run[0].0, run[0].1) && ClocksBefore(s, run, time)
    ensures ClocksBefore(Apply(s, run[0].0, run[0].1), run[1..], time)
  {
    assert forall i :: 0 <= i < |run| - 1 ==> run[1..][i] == run[i + 1];
  }

  /** A key is never forgotten, and never creates again, while no purge has seen its expiry pass. */
  lemma {:induction false} UnexpiredKeyStays(s: State, run: Run, k: Key)
    requires Inv(s) && ValidRun(s, run) && k in s.db.keys && ClocksBefore(s, run, s.db.keys[k].expiresAt)
    ensures Forgotten(s, run, k) == 0 && Creations(s, run, k) == 0
    ensures k in After(s, run).db.keys && After(s, run).db.keys[k] == s.db.keys[k]
    decreases |run|
  {
    if run != [] {
      KeyStep(s, run[0].0, run[0].1, k);
      StepKeeps(s, run[0].0, run[0].1);
      ClockStep(s, run, s.db.keys[k].expiresAt);
      UnexpiredKeyStays(Apply(s, run[0].0, run[0].1), run[1..], k);
    }
  }

  // ---- the second creation is real ----

  lemma Prepend(s: State, t: TxId, e: Event, rest: Run, k: Key) returns (run: Run)
    requires Enabled(s, t, e) && ValidRun(Apply(s, t, e), rest)
    ensures ValidRun(s, run) && After(s, run) == After(Apply(s, t, e), rest)
    ensures Creations(s, run, k) == Bit(CreatesUnder(s, t, e, k)) + Creations(Apply(s, t, e), rest, k)
    ensures Forgotten(s, run, k) == Bit(Purges(s, t, e, k)) + Forgotten(Apply(s, t, e), rest, k)
  {
    run := [(t, e)] + rest;
    assert run[1..] == rest;
  }

  const FREE := Price(0, 0)

  /** One transaction working alone. */
  function Solo(db: Db, tx: Tx): State { State(db, map[0 := tx]) }

  function Quiet(db: Db): State { State(db, map[]) }

  /** `run` continues as `rest` does from `s'`, after creating and forgetting `k` so many times. */
  ghost predicate Continues(s: State, run: Run, s': State, rest: Run, k: Key, created: nat, forgotten: nat) {
    && ValidRun(s', rest) && ValidRun(s, run) && After(s, run) == After(s', rest)
    && Creations(s, run, k) == created + Creations(s', rest, k)
    && Forgotten(s, run, k) == forgotten + Forgotten(s', rest, k)
  }

  lemma BeginAlone(db: Db, e: Event, rest: Run, k: Key) returns (run: Run)
    requires Enabled(Quiet(db), 0, e) && ValidRun(Solo(db, Begun(db, e)), rest)
    ensures Continues(Quiet(db), run, Solo(db, Begun(db, e)), rest, k, 0, 0)
  {
    assert Apply(Quiet(db), 0, e) == Solo(db, Begun(db, e));
    run := Prepend(Quiet(db), 0, e, rest, k);
  }

  lemma AppliedAlone(db: Db, tx: Tx, e: Event)
    requires EnabledIn(Solo(db, tx), 0, tx, e) && !e.Quit? && !Commits(tx, e)
    ensures Enabled(Solo(db, tx), 0, e) && Apply(Solo(db, tx), 0, e) == Solo(db, Advanced(db, tx, e))
  {
  }

  lemma AdvanceAlone(db: Db, tx: Tx, e: Event, next: Tx, rest: Run, k: Key) returns (run: Run)
    requires EnabledIn(Solo(db, tx), 0, tx, e) && !e.Quit? && !Commits(tx, e) && next == Advanced(db, tx, e)
    requires ValidRun(Solo(db, next), rest)
    ensures Continues(Solo(db, tx), run, Solo(db, next), rest, k, 0, 0)
  {
    AppliedAlone(db, tx, e);
    run := Prepend(Solo(db, tx), 0, e, rest, k);
  }

  lemma CommitAlone(db: Db, tx: Tx, e: Event, db': Db, rest: Run, k: Key) returns (run: Run)
    requires EnabledIn(Solo(db, tx), 0, tx, e) && Commits(tx, e) && !e.Quit?
    requires !tx.WritingClosing? && db' == Committed(db, tx, e)
    requires ValidRun(Quiet(db'), rest)
    ensures Continues(Solo(db, tx), run, Quiet(db'), rest, k,
                      Bit(tx.CreateWriting? && tx.key == k), Bit(tx.Purging? && k in KeysOf(tx.walked)))
  {
    assert Apply(Solo(db, tx), 0, e) == Quiet(db');
    run := Prepend(Solo(db, tx), 0, e, rest, k);
  }

  /** The room is active, and this is the window a creation would take. */
  ghost predicate Ready(db: Db, room: RoomId, w: WindowId, stay: Stay) {
    room in db.rooms && db.rooms[room] && FirstFitting(db, room, stay, w) && stay.Valid()
  }

  function Created(db: Db, k: Key, b: BookingId, room: RoomId, w: WindowId, stay: Stay, expiresAt: Time): Db {
    var after := Booking(w, stay, Pending, 1, FREE);
    db.(bookings := db.bookings[b := after], keys := db.keys[k := KeyUse(b, expiresAt)],
        stream := Recorded(db, b, after, room, None, None))
  }

  lemma FinishCreation(db: Db, k: Key, b: BookingId, room: RoomId, w: WindowId, stay: Stay, expiresAt: Time, rest: Run)
    returns (run: Run)
    requires Ready(db, room, w, stay) && k !in db.keys && b !in db.bookings
    requires ValidRun(Quiet(Created(db, k, b, room, w, stay, expiresAt)), rest)
    ensures Continues(Solo(db, CreateWriting(k, room, stay, FREE, w)), run,
                      Quiet(Created(db, k, b, room, w, stay, expiresAt)), rest, k, 1, 0)
  {
    var tx := CreateWriting(k, room, stay, FREE, w);
    run := CommitAlone(db, tx, CreateWrite(b, expiresAt), Created(db, k, b, room, w, stay, expiresAt), rest, k);
  }

  lemma TakeWindow(db: Db, k: Key, room: RoomId, w: WindowId, stay: Stay, rest: Run) returns (run: Run)
    requires Ready(db, room, w, stay) && ValidRun(Solo(db, CreateWriting(k, room, stay, FREE, w)), rest)
    ensures Continues(Solo(db, CreateWindow(k, room, stay, FREE)), run,
                      Solo(db, CreateWriting(k, room, stay, FREE, w)), rest, k, 0, 0)
  {
    run := AdvanceAlone(db, CreateWindow(k, room, stay, FREE), CreateTakeWindow(w),
                        CreateWriting(k, room, stay, FREE, w), rest, k);
  }

  lemma TakeTarget(db: Db, k: Key, room: RoomId, w: WindowId, stay: Stay, rest: Run) returns (run: Run)
    requires Ready(db, room, w, stay) && ValidRun(Solo(db, CreateWriting(k, room, stay, FREE, w)), rest)
    ensures Continues(Solo(db, CreateRoom(k, room, stay, FREE)), run, Solo(db, CreateWriting(k, room, stay, FREE, w)),
                      rest, k, 0, 0)
  {
    run := TakeWindow(db, k, room, w, stay, rest);
    run := AdvanceAlone(db, CreateRoom(k, room, stay, FREE), CreateTakeRoom, CreateWindow(k, room, stay, FREE), run, k);
  }

  lemma StartCreation(db: Db, k: Key, room: RoomId, stay: Stay, rest: Run) returns (run: Run)
    requires k !in db.keys && stay.Valid() && ValidRun(Solo(db, CreateRoom(k, room, stay, FREE)), rest)
    ensures Continues(Quiet(db), run, Solo(db, CreateRoom(k, room, stay, FREE)), rest, k, 0, 0)
  {
    run := AdvanceAlone(db, CreateKey(k, room, stay, FREE), TakeKey(stay.checkIn), CreateRoom(k, room, stay, FREE),
                        rest, k);
    run := BeginAlone(db, BeginCreate(k, room, stay, FREE), run, k);
  }

  lemma CreateOne(db: Db, k: Key, b: BookingId, room: RoomId, w: WindowId, stay: Stay, expiresAt: Time, rest: Run)
    returns (run: Run)
    requires Ready(db, room, w, stay) && k !in db.keys && b !in db.bookings
    requires ValidRun(Quiet(Created(db, k, b, room, w, stay, expiresAt)), rest)
    ensures Continues(Quiet(db), run, Quiet(Created(db, k, b, room, w, stay, expiresAt)), rest, k, 1, 0)
  {
    run := FinishCreation(db, k, b, room, w, stay, expiresAt, rest);
    run := TakeTarget(db, k, room, w, stay, run);
    run := StartCreation(db, k, room, stay, run);
  }

  lemma FinishPurge(db: Db, k: Key, now: Time, rest: Run) returns (run: Run)
    requires k in db.keys && db.keys[k].expiresAt <= now && ValidRun(Quiet(db.(keys := db.keys - {k})), rest)
    ensures Continues(Solo(db, Purging(now, [(db.keys[k].expiresAt, k)])), run, Quiet(db.(keys := db.keys - {k})),
                      rest, k, 0, 1)
  {
    var walked := [(db.keys[k].expiresAt, k)];
    assert KeysOf(walked) == {k} by { assert walked[0].1 == k; }
    run := CommitAlone(db, Purging(now, walked), PurgeCommit, db.(keys := db.keys - {k}), rest, k);
  }

  lemma WalkOne(db: Db, k: Key, now: Time, rest: Run) returns (run: Run)
    requires k in db.keys && db.keys[k].expiresAt <= now
    requires ValidRun(Solo(db, Purging(now, [(db.keys[k].expiresAt, k)])), rest)
    ensures Continues(Solo(db, Purging(now, [])), run, Solo(db, Purging(now, [(db.keys[k].expiresAt, k)])), rest, k,
                      0, 0)
  {
    run := AdvanceAlone(db, Purging(now, []), PurgeTake(k), Purging(now, [(db.keys[k].expiresAt, k)]), rest, k);
  }

  lemma PurgeOne(db: Db, k: Key, now: Time, rest: Run) returns (run: Run)
    requires k in db.keys && db.keys[k].expiresAt <= now && ValidRun(Quiet(db.(keys := db.keys - {k})), rest)
    ensures Continues(Quiet(db), run, Quiet(db.(keys := db.keys - {k})), rest, k, 0, 1)
  {
    run := FinishPurge(db, k, now, rest);
    run := WalkOne(db, k, now, run);
    run := BeginAlone(db, BeginPurge(now), run, k);
  }

  /**
   * From every quiet state, a spent key whose expiry has come can be forgotten and then create another booking: the
   * same request, retried late enough, books twice.
   */
  lemma ExpiredKeyCreatesAgain(db: Db, k: Key, now: Time, b: BookingId, room: RoomId, w: WindowId, stay: Stay)
    returns (run: Run)
    requires Ready(db, room, w, stay) && b !in db.bookings && k in db.keys && db.keys[k].expiresAt <= now
    ensures ValidRun(Quiet(db), run) && Creations(Quiet(db), run, k) == 1 && Forgotten(Quiet(db), run, k) == 1
    ensures var keys := After(Quiet(db), run).db.keys; k in keys && keys[k].booking == b
  {
    var purged := db.(keys := db.keys - {k});
    assert FirstFitting(purged, room, stay, w);
    run := CreateOne(purged, k, b, room, w, stay, now, []);
    run := PurgeOne(db, k, now, run);
  }

  lemma FinishWindow(db: Db, room: RoomId, w: WindowId, next: Window, rest: Run, k: Key) returns (run: Run)
    requires db.windows == map[] && ValidRun(Quiet(db.(windows := map[w := next])), rest)
    ensures Continues(Solo(db, AdminWriting(room, AddWindow(next), next, next)), run,
                      Quiet(db.(windows := map[w := next])), rest, k, 0, 0)
  {
    var tx := AdminWriting(room, AddWindow(next), next, next);
    run := CommitAlone(db, tx, AdminWrite(w), db.(windows := map[w := next]), rest, k);
  }

  lemma ProbeWindow(db: Db, room: RoomId, next: Window, rest: Run, k: Key) returns (run: Run)
    requires db.windows == map[] && ValidRun(Solo(db, AdminWriting(room, AddWindow(next), next, next)), rest)
    ensures Continues(Solo(db, AdminProbing(room, AddWindow(next), next, next)), run,
                      Solo(db, AdminWriting(room, AddWindow(next), next, next)), rest, k, 0, 0)
  {
    var tx := AdminProbing(room, AddWindow(next), next, next);
    run := AdvanceAlone(db, tx, AdminProbe, AdminWriting(room, AddWindow(next), next, next), rest, k);
  }

  lemma OpenWindow(db: Db, room: RoomId, w: WindowId, next: Window, rest: Run, k: Key) returns (run: Run)
    requires room in db.rooms && db.windows == map[] && next.room == room && next.from < next.to
    requires ValidRun(Quiet(db.(windows := map[w := next])), rest)
    ensures Continues(Quiet(db), run, Quiet(db.(windows := map[w := next])), rest, k, 0, 0)
  {
    var op := AddWindow(next);
    run := FinishWindow(db, room, w, next, rest, k);
    run := ProbeWindow(db, room, next, run, k);
    run := AdvanceAlone(db, AdminRoom(room, op), AdminTakeRoom, AdminProbing(room, op, next, next), run, k);
    run := BeginAlone(db, BeginAdmin(room, op), run, k);
  }

  /** The state is reachable: one key, forgotten once, has created two bookings. */
  lemma OneKeyBooksTwice(room: RoomId, k: Key, expiresAt: Time)
    ensures exists run: Run ::
      ValidRun(Start(map[room := true]), run) && Creations(Start(map[room := true]), run, k) == 2
  {
    var db0, stay, next := Start(map[room := true]).db, Stay(0, 1), Window(room, 0, 1, true);
    var db1 := db0.(windows := map[0 := next]);
    assert Ready(db1, room, 0, stay);
    var db2 := Created(db1, k, 0, room, 0, stay, expiresAt);
    assert Ready(db2, room, 0, stay);
    var run := ExpiredKeyCreatesAgain(db2, k, expiresAt, 1, room, 0, stay);
    run := CreateOne(db1, k, 0, room, 0, stay, expiresAt, run);
    run := OpenWindow(db0, room, 0, next, run, k);
    assert Quiet(db0) == Start(map[room := true]);
  }
}
