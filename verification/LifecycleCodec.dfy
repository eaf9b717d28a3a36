/**
 * The booking-lifecycle contract: the payload a booking transaction writes, the envelope the relay
 * publishes, and the two checking parsers. JSON is a tree; an ISO instant string is kept as the
 * instant it denotes.
 */
module LifecycleCodec {
  import opened Options
  import opened BookingModel
  import BookingProtocol
  import BookingSafety

  /** A property name; `other` is any name the contract does not define. */
  datatype Field =
    | schemaVersion | bookingId | bookingVersion | fromStatus | toStatus | booking | previousStay
    | roomId | roomTypeId | checkIn | checkOut | price | amount | currency
    | eventId | eventType | occurredAt
    | other(name: string)

  datatype Json =
    | JNull
    | JBool(b: bool)
    | JInt(n: int)
    | JFraction(r: real)
    | JStr(s: string)
    | JTime(ms: int)
    | JArr(items: seq<Json>)
    | JObj(fields: map<Field, Json>)

  datatype StayInfo = StayInfo(roomId: string, roomTypeId: string, checkIn: string, checkOut: string)

  datatype Payload = Payload(
    bookingId: string, version: int, from: Option<Status>, to: Status,
    stay: StayInfo, amount: int, currency: string, previous: Option<StayInfo>)

  /** A published message after the consumer has checked it. */
  datatype Received = Received(eventId: string, occurredAt: int, payload: Payload)

  const EVENT_TYPE := "booking-lifecycle.recorded"
  const SCHEMA_VERSION := 1
  const MAX_UNSIGNED_BIGINT := 18446744073709551615
  // The first and last instants of the years 1000 and 9999.
  const MIN_STORABLE := -30610224000000
  const MAX_STORABLE := 253402300799999

  const PAYLOAD_KEYS := {Field.schemaVersion, Field.bookingId, Field.bookingVersion, Field.fromStatus, Field.toStatus,
                         Field.booking, Field.previousStay}
  const STAY_KEYS := {Field.roomId, Field.roomTypeId, Field.checkIn, Field.checkOut}
  const ENVELOPE_KEYS := {Field.eventId, Field.eventType, Field.occurredAt}

  // ---- field formats ----

  predicate Digit(c: char) { '0' <= c <= '9' }

  predicate Crockford(c: char) { Digit(c) || ('A' <= c <= 'Z' && c !in "ILOU") }

  /** A leading `0`-`7` and twenty-five more base-32 characters. */
  predicate IsPublicId(s: string) {
    |s| == 26 && '0' <= s[0] <= '7' && forall i :: 0 <= i < |s| ==> Crockford(s[i])
  }

  function Decimal(s: string): nat
    requires forall i :: 0 <= i < |s| ==> Digit(s[i])
  {
    if s == [] then 0
    else
      assert Digit(s[|s| - 1]);
      10 * Decimal(s[..|s| - 1]) + (s[|s| - 1] as int - '0' as int)
  }

  /** A decimal id an unsigned 64-bit column can hold. */
  predicate IsStoredId(s: string) {
    1 <= |s| <= 20 && s[0] != '0' && (forall i :: 0 <= i < |s| ==> Digit(s[i])) && Decimal(s) <= MAX_UNSIGNED_BIGINT
  }

  function DaysIn(y: nat, m: nat): nat {
    if m == 2 then (if (y % 4 == 0 && y % 100 != 0) || y % 400 == 0 then 29 else 28)
    else if m in {4, 6, 9, 11} then 30
    else 31
  }

  predicate IsHotelDate(s: string) {
    && |s| == 10 && s[0] != '0' && s[4] == '-' && s[7] == '-'
    && (forall i :: 0 <= i < 10 && i != 4 && i != 7 ==> Digit(s[i]))
    && var y, m, d := Decimal(s[..4]), Decimal(s[5..7]), Decimal(s[8..]);
    1 <= m <= 12 && 1 <= d <= DaysIn(y, m)
  }

  predicate IsCurrency(iso: set<string>, s: string) {
    |s| == 3 && (forall i :: 0 <= i < 3 ==> 'A' <= s[i] <= 'Z') && s in iso
  }

  predicate Hex(c: char) { Digit(c) || 'a' <= c <= 'f' || 'A' <= c <= 'F' }

  predicate IsUuid(s: string) {
    |s| == 36 && forall i :: 0 <= i < 36 ==> if i in {8, 13, 18, 23} then s[i] == '-' else Hex(s[i])
  }

  /** String order, as the dates are compared. */
  predicate Less(a: string, b: string)
    decreases |a|
  {
    b != [] && (a == [] || a[0] < b[0] || (a[0] == b[0] && Less(a[1..], b[1..])))
  }

  function StatusText(s: Status): string {
    match s
    case Pending => "PENDING"
    case Confirmed => "CONFIRMED"
    case Rejected => "REJECTED"
    case CancelledByUser => "CANCELLED_BY_USER"
    case CancelledByAdmin => "CANCELLED_BY_ADMIN"
    case Completed => "COMPLETED"
  }

  function ReadStatus(j: Json): (r: Option<Status>)
    ensures r.Some? <==> exists s :: j == JStr(StatusText(s))
    ensures r.Some? ==> j == JStr(StatusText(r.value))
  {
    if j == JStr(StatusText(Pending)) then Some(Pending)
    else if j == JStr(StatusText(Confirmed)) then Some(Confirmed)
    else if j == JStr(StatusText(Rejected)) then Some(Rejected)
    else if j == JStr(StatusText(CancelledByUser)) then Some(CancelledByUser)
    else if j == JStr(StatusText(CancelledByAdmin)) then Some(CancelledByAdmin)
    else if j == JStr(StatusText(Completed)) then Some(Completed)
    else None
  }

  // ---- what may be published ----

  predicate ValidStay(s: StayInfo) {
    && IsHotelDate(s.checkIn) && IsHotelDate(s.checkOut) && Less(s.checkIn, s.checkOut)
    && IsStoredId(s.roomId) && IsStoredId(s.roomTypeId)
  }

  predicate ValidPayload(iso: set<string>, p: Payload) {
    && IsPublicId(p.bookingId) && 1 <= p.version <= MAX_SAFE_INTEGER
    && ValidStay(p.stay) && 0 <= p.amount <= MAX_SAFE_INTEGER && IsCurrency(iso, p.currency)
    && (p.previous.Some? ==> ValidStay(p.previous.value))
    && BookingSafety.Transition(p.from, p.to)
    && (p.previous.Some? <==> p.from == Some(p.to))
  }

  // ---- the builder and the relay's gate ----

  function StayFields(s: StayInfo): map<Field, Json> {
    map[Field.roomId := JStr(s.roomId), Field.roomTypeId := JStr(s.roomTypeId), Field.checkIn := JStr(s.checkIn),
        Field.checkOut := JStr(s.checkOut)]
  }

  function PriceFields(amount: int, currency: string): map<Field, Json> {
    map[Field.amount := JInt(amount), Field.currency := JStr(currency)]
  }

  function BookingFields(p: Payload): map<Field, Json> {
    StayFields(p.stay)[Field.price := JObj(PriceFields(p.amount, p.currency))]
  }

  function PayloadFields(p: Payload): map<Field, Json> {
    map[Field.schemaVersion := JInt(SCHEMA_VERSION),
        Field.bookingId := JStr(p.bookingId),
        Field.bookingVersion := JInt(p.version),
        Field.fromStatus := (if p.from.None? then JNull else JStr(StatusText(p.from.value))),
        Field.toStatus := JStr(StatusText(p.to)),
        Field.booking := JObj(BookingFields(p)),
        Field.previousStay := (if p.previous.None? then JNull else JObj(StayFields(p.previous.value)))]
  }

  predicate IsRecord(j: Json, keys: set<Field>) { j.JObj? && j.fields.Keys == keys }

  function ReadStay(v: map<Field, Json>): Option<StayInfo>
    requires STAY_KEYS <= v.Keys
  {
    if v[Field.roomId].JStr? && v[Field.roomTypeId].JStr? && v[Field.checkIn].JStr? && v[Field.checkOut].JStr? then
      var s := StayInfo(v[Field.roomId].s, v[Field.roomTypeId].s, v[Field.checkIn].s, v[Field.checkOut].s);
      if ValidStay(s) then Some(s) else None
    else None
  }

  /** `null`, or exactly a stay. */
  function ReadPrevious(j: Json): Option<Option<StayInfo>> {
    if j.JNull? then Some(None)
    else if !IsRecord(j, STAY_KEYS) then None
    else match ReadStay(j.fields) case None => None case Some(s) => Some(Some(s))
  }

  function ReadFrom(j: Json): Option<Option<Status>> {
    if j.JNull? then Some(None)
    else match ReadStatus(j) case None => None case Some(s) => Some(Some(s))
  }

  datatype Booked = Booked(stay: StayInfo, amount: int, currency: string)

  function ReadBooking(iso: set<string>, j: Json): Option<Booked> {
    if !IsRecord(j, STAY_KEYS + {Field.price}) || !IsRecord(j.fields[Field.price],
                                                            {Field.amount, Field.currency}) then None else
    var price := j.fields[Field.price].fields;
    if !(price[Field.amount].JInt? && 0 <= price[Field.amount].n <= MAX_SAFE_INTEGER) then None else
    if !(price[Field.currency].JStr? && IsCurrency(iso, price[Field.currency].s)) then None else
    match ReadStay(j.fields)
    case None => None
    case Some(stay) => Some(Booked(stay, price[Field.amount].n, price[Field.currency].s))
  }

  /** Exact keys, checked values, a transition the contract defines. */
  function ParsePayload(iso: set<string>, j: Json): Option<Payload> {
    if !IsRecord(j, PAYLOAD_KEYS) then None else
    var v := j.fields;
    if v[Field.schemaVersion] != JInt(SCHEMA_VERSION) then None else
    if !(v[Field.bookingId].JStr? && IsPublicId(v[Field.bookingId].s)) then None else
    if !(v[Field.bookingVersion].JInt? && 1 <= v[Field.bookingVersion].n <= MAX_SAFE_INTEGER) then None else
    var from, to := ReadFrom(v[Field.fromStatus]), ReadStatus(v[Field.toStatus]);
    if from.None? || to.None? then None else
    var booking, previous := ReadBooking(iso, v[Field.booking]), ReadPrevious(v[Field.previousStay]);
    if booking.None? || previous.None? then None else
    if !BookingSafety.Transition(from.value, to.value) then None else
    if previous.value.Some? && from.value != Some(to.value) then None else
    if previous.value.None? && from.value == Some(to.value) then None else
    Some(Payload(v[Field.bookingId].s, v[Field.bookingVersion].n, from.value, to.value, booking.value.stay,
                 booking.value.amount, booking.value.currency, previous.value))
  }

  lemma ReadStayExact(v: map<Field, Json>, s: StayInfo)
    requires v.Keys == STAY_KEYS
    ensures ReadStay(v) == Some(s) <==> ValidStay(s) && v == StayFields(s)
  {
    if ReadStay(v) == Some(s) { assert v == StayFields(s); }
  }

  lemma ReadBookingExact(iso: set<string>, j: Json, p: Payload)
    ensures ReadBooking(iso, j) == Some(Booked(p.stay, p.amount, p.currency))
      <==> ValidStay(p.stay) && 0 <= p.amount <= MAX_SAFE_INTEGER && IsCurrency(iso, p.currency)
           && j == JObj(BookingFields(p))
  {
    var b := Booked(p.stay, p.amount, p.currency);
    if ReadBooking(iso, j) == Some(b) {
      assert j.fields[Field.price].fields == PriceFields(p.amount, p.currency);
      assert j.fields == BookingFields(p);
    }
  }

  lemma ReadPreviousExact(j: Json, s: Option<StayInfo>)
    ensures ReadPrevious(j) == Some(s) <==>
      (s.Some? ==> ValidStay(s.value)) && j == if s.None? then JNull else JObj(StayFields(s.value))
  {
    if s.Some? && IsRecord(j, STAY_KEYS) { ReadStayExact(j.fields, s.value); }
  }

  lemma ReadStatusExact(j: Json, s: Status)
    ensures ReadStatus(j) == Some(s) <==> j == JStr(StatusText(s))
  {
    assert StatusText(Pending)[0] == 'P' && StatusText(Confirmed)[1] == 'O' && StatusText(Rejected)[0] == 'R';
    assert StatusText(Completed)[2] == 'M' && StatusText(Confirmed)[2] == 'N';
    assert StatusText(CancelledByUser)[13] == 'U' && StatusText(CancelledByAdmin)[13] == 'A';
  }

  lemma ReadFromExact(j: Json, s: Option<Status>)
    ensures ReadFrom(j) == Some(s) <==> j == if s.None? then JNull else JStr(StatusText(s.value))
  {
    if s.Some? { ReadStatusExact(j, s.value); }
  }

  /** Every valid payload passes the gate unchanged. */
  lemma GateAcceptsValid(iso: set<string>, p: Payload)
    requires ValidPayload(iso, p)
    ensures ParsePayload(iso, JObj(PayloadFields(p))) == Some(p)
  {
    var v := PayloadFields(p);
    ReadBookingExact(iso, v[Field.booking], p);
    ReadPreviousExact(v[Field.previousStay], p.previous);
    ReadFromExact(v[Field.fromStatus], p.from);
    ReadStatusExact(v[Field.toStatus], p.to);
  }

  /** Whatever passes the gate is the encoding of the valid payload it returns, and of nothing else. */
  lemma GateAcceptsOnlyValid(iso: set<string>, j: Json)
    requires ParsePayload(iso, j).Some?
    ensures var p := ParsePayload(iso, j).value; ValidPayload(iso, p) && j == JObj(PayloadFields(p))
  {
    var p := ParsePayload(iso, j).value;
    var v := j.fields;
    ReadBookingExact(iso, v[Field.booking], p);
    ReadPreviousExact(v[Field.previousStay], p.previous);
    ReadFromExact(v[Field.fromStatus], p.from);
    ReadStatusExact(v[Field.toStatus], p.to);
    assert v == PayloadFields(p);
  }

  lemma StatusTextOnce(s: Status, t: Status)
    requires StatusText(s) == StatusText(t)
    ensures s == t
  {
    ReadStatusExact(JStr(StatusText(s)), s);
    ReadStatusExact(JStr(StatusText(t)), t);
  }

  lemma StayFieldsOnce(s: StayInfo, t: StayInfo)
    requires StayFields(s) == StayFields(t)
    ensures s == t
  {
    var v, w := StayFields(s), StayFields(t);
    assert v[Field.roomId] == w[Field.roomId] && v[Field.roomTypeId] == w[Field.roomTypeId];
    assert v[Field.checkIn] == w[Field.checkIn] && v[Field.checkOut] == w[Field.checkOut];
  }

  lemma BookingFieldsOnce(p: Payload, q: Payload)
    requires BookingFields(p) == BookingFields(q)
    ensures p.stay == q.stay && p.amount == q.amount && p.currency == q.currency
  {
    var v, w := BookingFields(p), BookingFields(q);
    assert StayFields(p.stay) == v - {Field.price} && StayFields(q.stay) == w - {Field.price};
    StayFieldsOnce(p.stay, q.stay);
    assert v[Field.price] == w[Field.price];
    var a, b := PriceFields(p.amount, p.currency), PriceFields(q.amount, q.currency);
    assert a[Field.amount] == b[Field.amount] && a[Field.currency] == b[Field.currency];
  }

  /** No two payloads share an encoding. */
  lemma PayloadFieldsOnce(p: Payload, q: Payload)
    requires PayloadFields(p) == PayloadFields(q)
    ensures p == q
  {
    var v, w := PayloadFields(p), PayloadFields(q);
    assert v[Field.bookingId] == w[Field.bookingId] && v[Field.bookingVersion] == w[Field.bookingVersion];
    assert v[Field.fromStatus] == w[Field.fromStatus] && v[Field.toStatus] == w[Field.toStatus];
    assert v[Field.booking] == w[Field.booking] && v[Field.previousStay] == w[Field.previousStay];
    StatusTextOnce(p.to, q.to);
    if p.from.Some? && q.from.Some? { StatusTextOnce(p.from.value, q.from.value); }
    BookingFieldsOnce(p, q);
    if p.previous.Some? && q.previous.Some? { StayFieldsOnce(p.previous.value, q.previous.value); }
  }

  /** The gate lets a built payload through exactly when it meets the contract. */
  lemma GateIsExact(iso: set<string>, p: Payload)
    ensures ParsePayload(iso, JObj(PayloadFields(p))) == if ValidPayload(iso, p) then Some(p) else None
  {
    if ValidPayload(iso, p) {
      GateAcceptsValid(iso, p);
    } else if ParsePayload(iso, JObj(PayloadFields(p))).Some? {
      GateAcceptsOnlyValid(iso, JObj(PayloadFields(p)));
      PayloadFieldsOnce(p, ParsePayload(iso, JObj(PayloadFields(p))).value);
    }
  }

  // ---- the envelope ----

  function Envelope(eventId: string, occurredAt: int): map<Field, Json> {
    map[Field.eventId := JStr(eventId), Field.eventType := JStr(EVENT_TYPE), Field.occurredAt := JTime(occurredAt)]
  }

  function ToMessage(eventId: string, occurredAt: int, p: Payload): Json {
    JObj(Envelope(eventId, occurredAt) + PayloadFields(p))
  }

  datatype Stamp = Stamp(eventId: string, occurredAt: int) {
    predicate Storable() { IsUuid(eventId) && MIN_STORABLE <= occurredAt <= MAX_STORABLE }
  }

  function ReadEnvelope(v: map<Field, Json>): Option<Stamp> {
    if ENVELOPE_KEYS <= v.Keys && v[Field.eventId].JStr? && v[Field.eventType] == JStr(EVENT_TYPE)
       && v[Field.occurredAt].JTime? then
      var stamp := Stamp(v[Field.eventId].s, v[Field.occurredAt].ms);
      if stamp.Storable() then Some(stamp) else None
    else None
  }

  function ParseMessage(iso: set<string>, value: Option<Json>): Option<Received> {
    if value.None? || !value.value.JObj? then None else
    var v := value.value.fields;
    match ReadEnvelope(v)
    case None => None
    case Some(stamp) =>
      match ParsePayload(iso, JObj(v - ENVELOPE_KEYS))
      case None => None
      case Some(p) => Some(Received(stamp.eventId, stamp.occurredAt, p))
  }

  /** The envelope and the payload share no field, so a message splits into the two it was made of. */
  lemma MessageSplits(eventId: string, occurredAt: int, p: Payload)
    ensures
      var v := Envelope(eventId, occurredAt) + PayloadFields(p);
      v - ENVELOPE_KEYS == PayloadFields(p)
      && (Stamp(eventId, occurredAt).Storable() ==> ReadEnvelope(v) == Some(Stamp(eventId, occurredAt)))
  {
    assert Envelope(eventId, occurredAt).Keys == ENVELOPE_KEYS && PayloadFields(p).Keys == PAYLOAD_KEYS;
  }

  /** A published message parses back to the row it was made from. */
  lemma MessageRoundTrip(iso: set<string>, eventId: string, occurredAt: int, p: Payload)
    requires ValidPayload(iso, p) && IsUuid(eventId) && MIN_STORABLE <= occurredAt <= MAX_STORABLE
    ensures ParseMessage(iso, Some(ToMessage(eventId, occurredAt, p))) == Some(Received(eventId, occurredAt, p))
  {
    MessageSplits(eventId, occurredAt, p);
    GateAcceptsValid(iso, p);
  }

  lemma SplitFields(v: map<Field, Json>, e: map<Field, Json>, keys: set<Field>)
    requires e.Keys == keys && keys <= v.Keys && forall k :: k in keys ==> v[k] == e[k]
    ensures v == e + (v - keys)
  {
  }

  lemma ReadEnvelopeExact(v: map<Field, Json>, stamp: Stamp)
    requires ReadEnvelope(v) == Some(stamp)
    ensures stamp.Storable() && v == Envelope(stamp.eventId, stamp.occurredAt) + (v - ENVELOPE_KEYS)
  {
    SplitFields(v, Envelope(stamp.eventId, stamp.occurredAt), ENVELOPE_KEYS);
  }

  /** The consumer accepts nothing the relay would not have published. */
  lemma ConsumerAcceptsOnlyPublished(iso: set<string>, value: Json)
    requires ParseMessage(iso, Some(value)).Some?
    ensures
      var r := ParseMessage(iso, Some(value)).value;
      value == ToMessage(r.eventId, r.occurredAt, r.payload) && ValidPayload(iso, r.payload) && IsUuid(r.eventId)
  {
    ReadEnvelopeExact(value.fields, ReadEnvelope(value.fields).value);
    GateAcceptsOnlyValid(iso, JObj(value.fields - ENVELOPE_KEYS));
  }

  // ---- the rows the booking transactions write ----

  /** How the allocator's rows are spelled in a payload. */
  datatype Spelling = Spelling(
    publicId: BookingId -> string, room: RoomId -> string, roomType: RoomId -> string, day: Day -> string,
    currency: CurrencyId -> string)

  function Spelled(sp: Spelling, p: Place): StayInfo {
    StayInfo(sp.room(p.room), sp.roomType(p.room), sp.day(p.stay.checkIn), sp.day(p.stay.checkOut))
  }

  /** The spelling fits the columns: ids in range, real dates, in the order of the days. */
  predicate Spells(sp: Spelling, p: Place) {
    && IsStoredId(sp.room(p.room)) && IsStoredId(sp.roomType(p.room))
    && IsHotelDate(sp.day(p.stay.checkIn)) && IsHotelDate(sp.day(p.stay.checkOut))
    && (p.stay.Valid() ==> Less(sp.day(p.stay.checkIn), sp.day(p.stay.checkOut)))
  }

  function ToPayload(sp: Spelling, b: BookingId, c: Change): Payload {
    Payload(sp.publicId(b), c.version, c.from, c.to, Spelled(sp, c.place), c.price.amount,
            sp.currency(c.price.currency),
            if c.previous.None? then None else Some(Spelled(sp, c.previous.value)))
  }

  /** A row of a booking's chained history meets the payload contract. */
  lemma HistoryIsValid(iso: set<string>, sp: Spelling, b: BookingId, rows: seq<Change>, i: nat)
    requires BookingSafety.Chained(rows) && i < |rows| && i < MAX_SAFE_INTEGER
    requires IsPublicId(sp.publicId(b)) && IsCurrency(iso, sp.currency(rows[i].price.currency))
    requires Spells(sp, rows[i].place) && (i > 0 ==> Spells(sp, rows[i - 1].place))
    ensures ValidPayload(iso, ToPayload(sp, b, rows[i]))
  {
    assert BookingSafety.Follows(rows, i);
    if i > 0 { assert BookingSafety.Follows(rows, i - 1); }
  }

  /**
   * In every run of the booking transactions, each lifecycle row of a booking whose ids and dates the columns can hold
   * passes the relay's gate unchanged, up to the largest version the contract can count.
   */
  lemma HistoryPassesTheGate(iso: set<string>, sp: Spelling, rooms: map<RoomId, bool>,
                             run: BookingProtocol.Run,
                             b: BookingId, i: nat)
    requires BookingProtocol.ValidRun(BookingSafety.Start(rooms), run)
    requires IsPublicId(sp.publicId(b))
    requires
      var db := BookingProtocol.After(BookingSafety.Start(rooms), run).db;
      && b in db.stream && i < |db.stream[b]| && i < MAX_SAFE_INTEGER
      && IsCurrency(iso, sp.currency(db.stream[b][i].price.currency))
      && forall j :: 0 <= j <= i ==> Spells(sp, db.stream[b][j].place)
    ensures
      var p := ToPayload(sp, b, BookingProtocol.After(BookingSafety.Start(rooms), run).db.stream[b][i]);
      ParsePayload(iso, JObj(PayloadFields(p))) == Some(p)
  {
    BookingSafety.RunKeeps(BookingSafety.Start(rooms), run);
    var db := BookingProtocol.After(BookingSafety.Start(rooms), run).db;
    assert BookingSafety.Tells(db.stream[b], db.bookings[b], RoomOf(db, b));
    HistoryIsValid(iso, sp, b, db.stream[b], i);
    GateIsExact(iso, ToPayload(sp, b, db.stream[b][i]));
  }
}
