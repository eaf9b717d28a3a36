/**
 * The read model can always catch up: from every state of the combined system, the stream alone can bring the read
 * model to mirror the bookings. And there are bookings to mirror.
 */
module BookingCatchUp {
  import opened Options
  import opened BookingModel
  import opened LifecycleCodec
  import opened BookingReadModel
  import K = BookingKeys
  import D = LifecycleDraining

  lemma {:induction false} ReachesJoin(x: Setting, s: System, a: Run, mid: System, b: Run, end: System)
    requires Reaches(x, s, a, mid) && Reaches(x, mid, b, end)
    ensures Reaches(x, s, a + b, end)
    decreases |a|
  {
    if a == [] {
      assert a + b == b;
    } else {
      var next :| Moves(x, s, a[0], next) && Reaches(x, next, a[1..], mid);
      ReachesJoin(x, next, a[1..], mid, b, end);
      assert (a + b)[1..] == a[1..] + b;
    }
  }

  lemma ReachesOne(x: Setting, s: System, e: Step, s': System) returns (run: Run)
    requires Moves(x, s, e, s')
    ensures Reaches(x, s, run, s') && run == [e]
  {
    run := [e];
    assert Reaches(x, s', run[1..], s');
  }

  predicate OnlyPipe(run: Run) { forall i :: 0 <= i < |run| ==> run[i].Pipe? }

  // ---- the stream by itself ----

  lemma {:induction false} LiftPipe(x: Setting, s: System, piped: L.Run) returns (run: Run)
    requires Inv(x, s) && L.ValidRun(s.stream, piped) && D.NoRecord(piped)
    ensures Reaches(x, s, run, System(s.hotel, L.After(s.stream, piped))) && OnlyPipe(run)
    decreases |piped|
  {
    if piped == [] {
      run := [];
    } else {
      var e := Pipe(piped[0]);
      assert !piped[0].Record?;
      var next := s.(stream := L.Next(s.stream, piped[0]));
      StepKeeps(x, s, e, next);
      var first := ReachesOne(x, s, e, next);
      assert forall i :: 0 <= i < |piped| - 1 ==> piped[1..][i] == piped[i + 1];
      var rest := LiftPipe(x, next, piped[1..]);
      ReachesJoin(x, s, first, next, rest, System(s.hotel, L.After(s.stream, piped)));
      run := first + rest;
    }
  }

  /** From every state, the stream alone can reach one in which the read model mirrors the bookings. */
  lemma ReadModelCatchesUp(x: Setting, s: System) returns (run: Run, end: System)
    requires Inv(x, s) && |s.stream.log| > 0 && VersionsFit(s.hotel.db)
    ensures Reaches(x, s, run, end) && OnlyPipe(run) && Inv(x, end)
    ensures end.hotel == s.hotel && L.Drained(end.stream) && Mirrors(x, end)
  {
    var stream := D.CanDrain(s.stream);
    var piped: L.Run :| L.ValidRun(s.stream, piped) && D.NoRecord(piped) && L.After(s.stream, piped) == stream;
    run := LiftPipe(x, s, piped);
    end := System(s.hotel, stream);
    RunKeeps(x, s, run, end);
    NothingIsRefused(x, end);
    DrainedMirrors(x, end);
  }

  // ---- the hotel by itself ----

  lemma RowsGrow(s: B.State, t: B.TxId, e: B.Event, b: BookingId)
    requires B.Enabled(s, t, e)
    ensures |RowsOf(s.db, b)| <= |RowsOf(B.Apply(s, t, e).db, b)|
    ensures Changed(s, t, e) == Some(b) ==> |RowsOf(s.db, b)| < |RowsOf(B.Apply(s, t, e).db, b)|
  {
    ChangeIsAppended(s, t, e);
  }

  lemma {:induction false} RowsNeverShrink(s: B.State, run: B.Run, b: BookingId)
    requires B.ValidRun(s, run)
    ensures |RowsOf(s.db, b)| <= |RowsOf(B.After(s, run).db, b)|
    decreases |run|
  {
    if run != [] {
      RowsGrow(s, run[0].0, run[0].1, b);
      RowsNeverShrink(B.Apply(s, run[0].0, run[0].1), run[1..], b);
    }
  }

  /** A run that ends with the histories it began with changed no booking on the way. */
  lemma NothingChanged(s: B.State, run: B.Run)
    requires B.ValidRun(s, run) && run != [] && B.After(s, run).db.stream == s.db.stream
    ensures Changed(s, run[0].0, run[0].1).None? && B.Apply(s, run[0].0, run[0].1).db.stream == s.db.stream
  {
    ChangeIsAppended(s, run[0].0, run[0].1);
    if Changed(s, run[0].0, run[0].1).Some? {
      var b := Changed(s, run[0].0, run[0].1).value;
      RowsGrow(s, run[0].0, run[0].1, b);
      RowsNeverShrink(B.Apply(s, run[0].0, run[0].1), run[1..], b);
    }
  }

  lemma {:induction false} LiftHotel(x: Setting, s: System, hotelRun: B.Run) returns (run: Run)
    requires Inv(x, s) && B.ValidRun(s.hotel, hotelRun) && B.After(s.hotel, hotelRun).db.stream == s.hotel.db.stream
    ensures Reaches(x, s, run, System(B.After(s.hotel, hotelRun), s.stream))
    decreases |hotelRun|
  {
    if hotelRun == [] {
      run := [];
    } else {
      NothingChanged(s.hotel, hotelRun);
      var e := Hotel(hotelRun[0].0, hotelRun[0].1, "", 0);
      var next := s.(hotel := B.Apply(s.hotel, hotelRun[0].0, hotelRun[0].1));
      StepKeeps(x, s, e, next);
      var first := ReachesOne(x, s, e, next);
      var rest := LiftHotel(x, next, hotelRun[1..]);
      ReachesJoin(x, s, first, next, rest, System(B.After(s.hotel, hotelRun), s.stream));
      run := first + rest;
    }
  }

  // ---- a booking to mirror ----

  const ID := "00000000-0000-0000-0000-000000000000"
  const TODAY := "2030-01-01"
  const TOMORROW := "2030-01-02"

  /** One spelling that fits: a public id, a room, two days and a currency. */
  function Sample(): Setting {
    Setting(Spelling(_ => "00000000000000000000000000", _ => "1", _ => "1", d => if d <= 0 then TODAY else TOMORROW,
                     _ => "USD"), {"USD"})
  }

  predicate Digits(s: string) { forall i :: 0 <= i < |s| ==> Digit(s[i]) }

  lemma NextDigit(s: string, c: char)
    requires Digits(s) && Digit(c)
    ensures Digits(s + [c]) && Decimal(s + [c]) == 10 * Decimal(s) + (c as int - '0' as int)
  {
    assert (s + [c])[..|s|] == s;
  }

  lemma YearIs()
    ensures Digits("2030") && Decimal("2030") == 2030
  {
    NextDigit("", '2');
    NextDigit("2", '0');
    NextDigit("20", '3');
    NextDigit("203", '0');
    assert "" + ['2'] == "2" && "2" + ['0'] == "20" && "20" + ['3'] == "203" && "203" + ['0'] == "2030";
  }

  lemma TwoDigits()
    ensures Digits("01") && Decimal("01") == 1 && Digits("02") && Decimal("02") == 2
  {
    NextDigit("", '0');
    NextDigit("0", '1');
    NextDigit("0", '2');
    assert "" + ['0'] == "0" && "0" + ['1'] == "01" && "0" + ['2'] == "02";
  }

  lemma DayFits(s: string)
    requires s == TODAY || s == TOMORROW
    ensures IsHotelDate(s)
  {
    YearIs();
    TwoDigits();
    assert s[..4] == "2030" && s[5..7] == "01" && s[8..] == if s == TODAY then "01" else "02";
  }

  lemma Decimals()
    ensures IsHotelDate(TODAY) && IsHotelDate(TOMORROW) && Less(TODAY, TOMORROW) && IsStoredId("1")
  {
    DayFits(TODAY);
    DayFits(TOMORROW);
    assert TODAY == "2030-01-0" + "1" && TOMORROW == "2030-01-0" + "2";
    LessAfter("2030-01-0", "1", "2");
    NextDigit("", '1');
    assert "" + ['1'] == "1";
  }

  lemma {:induction false} LessAfter(prefix: string, a: string, b: string)
    requires Less(a, b)
    ensures Less(prefix + a, prefix + b)
  {
    if prefix == [] {
      assert prefix + a == a && prefix + b == b;
    } else {
      LessAfter(prefix[1..], a, b);
      assert (prefix + a)[1..] == prefix[1..] + a && (prefix + b)[1..] == prefix[1..] + b;
    }
  }

  lemma SampleFits(s: System, c: Change)
    requires s.stream.rows == map[] && s.stream.relays == map[] && s.hotel.db.stream == map[]
    requires c.place == Place(1, Stay(0, 1))
    ensures Insertable(Sample(), s, 0, c, ID, 0)
  {
    Decimals();
    assert "USD" in Sample().iso;
  }

  function Opened(): Db { S.Start(map[1 := true]).db.(windows := map[0 := Window(1, 0, 1, true)]) }

  function Deciding(): B.Tx { B.CreateWriting(0, 1, Stay(0, 1), K.FREE, 0) }

  /** A window is opened and a creation gets as far as its write. */
  lemma AlmostCreated() returns (run: B.Run)
    ensures B.ValidRun(S.Start(map[1 := true]), run)
    ensures B.After(S.Start(map[1 := true]), run) == K.Solo(Opened(), Deciding())
  {
    var stay, db := Stay(0, 1), Opened();
    assert K.Ready(db, 1, 0, stay);
    run := K.TakeTarget(db, 0, 1, 0, stay, []);
    run := K.StartCreation(db, 0, 1, stay, run);
    run := K.OpenWindow(S.Start(map[1 := true]).db, 1, 0, Window(1, 0, 1, true), run, 0);
    assert K.Quiet(S.Start(map[1 := true]).db) == S.Start(map[1 := true]);
  }

  lemma WriteBooks(s: System)
    requires s.hotel == K.Solo(Opened(), Deciding()) && s.stream.rows == map[] && s.stream.relays == map[]
    ensures Enabled(Sample(), s, Hotel(0, B.CreateWrite(0, 0), ID, 0))
    ensures B.Apply(s.hotel, 0, B.CreateWrite(0, 0)).db.bookings == map[0 := Booking(0, Stay(0, 1), Pending, 1, K.FREE)]
  {
    var rows := RowsOf(B.Apply(s.hotel, 0, B.CreateWrite(0, 0)).db, 0);
    assert rows == [Change(1, None, Pending, Place(1, Stay(0, 1)), K.FREE, None)];
    SampleFits(s, rows[0]);
  }

  lemma BookOne(s: System) returns (run: Run, s': System)
    requires Inv(Sample(), s) && s.hotel == K.Solo(Opened(), Deciding())
    requires s.stream.rows == map[] && s.stream.relays == map[]
    ensures Reaches(Sample(), s, run, s') && Inv(Sample(), s') && |s'.stream.log| == |s.stream.log|
    ensures s'.hotel.db.bookings == map[0 := Booking(0, Stay(0, 1), Pending, 1, K.FREE)]
  {
    var e := Hotel(0, B.CreateWrite(0, 0), ID, 0);
    WriteBooks(s);
    InsertIsEnabled(Sample(), s, e);
    s' := System(B.Apply(s.hotel, 0, B.CreateWrite(0, 0)), L.Next(s.stream, InsertOf(Sample(), s, e)));
    StepKeeps(Sample(), s, e, s');
    run := ReachesOne(Sample(), s, e, s');
  }

  lemma AlmostBooked(partitions: nat) returns (run: Run, s: System)
    ensures Reaches(Sample(), Start(Sample(), map[1 := true], partitions), run, s)
    ensures Inv(Sample(), s) && s.hotel == K.Solo(Opened(), Deciding())
    ensures s.stream == Start(Sample(), map[1 := true], partitions).stream
  {
    var s0 := Start(Sample(), map[1 := true], partitions);
    StartInv(Sample(), map[1 := true], partitions);
    var hotelRun := AlmostCreated();
    run := LiftHotel(Sample(), s0, hotelRun);
    s := System(K.Solo(Opened(), Deciding()), s0.stream);
    RunKeeps(Sample(), s0, run, s);
  }

  /** From the empty hotel there is a run to a drained state that holds a booking, which the read model shows. */
  lemma SomeBookingIsMirrored(partitions: nat) returns (run: Run, end: System)
    requires partitions > 0
    ensures Reaches(Sample(), Start(Sample(), map[1 := true], partitions), run, end)
    ensures L.Drained(end.stream) && VersionsFit(end.hotel.db) && 0 in end.hotel.db.bookings && Mirrors(Sample(), end)
  {
    var s0 := Start(Sample(), map[1 := true], partitions);
    var first, s1 := AlmostBooked(partitions);
    var write, s2 := BookOne(s1);
    assert VersionsFit(s2.hotel.db);
    var more;
    more, end := ReadModelCatchesUp(Sample(), s2);
    ReachesJoin(Sample(), s1, write, s2, more, end);
    ReachesJoin(Sample(), s0, first, s1, write + more, end);
    run := first + (write + more);
  }
}
