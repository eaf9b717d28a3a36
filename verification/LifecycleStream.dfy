/**
 * From a recorded booking change to the read model: outbox rows, relays that check each payload, may die or lose
 * their lease, an at-least-once log of messages, and a consumer that parses and applies a batch before it commits its
 * offset.
 *
 * Lease expiry is a matter of time only, so a claim may take any row that is not finished.
 */
module LifecycleStream {
  import opened Options
  import opened LifecycleCodec
  import opened StatsProjection

  type RowId = string
  type Token = nat

  /**
   * How a stored change becomes a message and a message a fact: the relay's gate and envelope, the consumer's parser
   * and mapper, and what the outbox columns can hold. `JsonWire` is the one the system runs.
   */
  datatype Wire = Wire(encode: Received -> Option<Json>, decode: Json -> Option<Entry>, stores: Received -> bool) {
    ghost predicate Faithful() {
      forall r :: stores(r) && encode(r).Some? ==> decode(encode(r).value) == Some(ToEntry(r))
    }
  }

  datatype RowStatus = Waiting | Leased(token: Token) | Processed | Refused {
    /** The row still owes its message to the log. */
    predicate Owes() { Waiting? || Leased? }
  }

  datatype Row = Row(event: Received, status: RowStatus)

  /** A relay cycle: the messages of its claim, the rows its gate refused, and whether the broker acknowledged. */
  datatype Relay = Relay(messages: map<RowId, Json>, invalid: set<RowId>, acknowledged: bool)

  /** `refused` remembers every change the gate has kept out of the log. */
  datatype Stream = Stream(
    wire: Wire,
    history: map<string, seq<Fact>>,
    rows: map<RowId, Row>,
    relays: map<Token, Relay>,
    log: seq<seq<Json>>,
    read: seq<nat>,
    committed: seq<nat>,
    active: bool,
    facts: Table,
    refused: set<Received>)

  datatype Step =
    | Record(event: Received)
    | Claim(token: Token, ids: set<RowId>)
    | MarkFailed(token: Token)
    | Append(token: Token, id: RowId, partition: nat)
    | Noise(message: Json, partition: nat)
    | Acknowledge(token: Token)
    | MarkPublished(token: Token)
    | MarkRetry(token: Token)
    | Die(token: Token)
    | Collect(id: RowId)
    | Handle(partition: nat, count: nat)
    | Commit(partition: nat)
    | StartConsumer
    | StopConsumer
    | Rewind
    | DeleteFacts(keys: set<string>)

  function Empty(wire: Wire, partitions: nat): Stream {
    Stream(wire, map[], map[], map[], seq(partitions, _ => []), seq(partitions, _ => 0), seq(partitions, _ => 0),
           false, map[], {})
  }

  function HistoryOf(s: Stream, key: string): seq<Fact> {
    if key in s.history then s.history[key] else []
  }

  function EntryOf(row: Row): Entry { ToEntry(row.event) }

  /** The facts a batch carries; a message the parser refuses carries none. */
  function Carried(wire: Wire, batch: seq<Json>): seq<Entry> {
    if batch == [] then []
    else
      var init, last := Carried(wire, batch[..|batch| - 1]), wire.decode(batch[|batch| - 1]);
      if last.None? then init else init + [last.value]
  }

  ghost predicate InLog(wire: Wire, log: seq<seq<Json>>, e: Entry) {
    exists p, i :: 0 <= p < |log| && 0 <= i < |log[p]| && wire.decode(log[p][i]) == Some(e)
  }

  ghost predicate AllInLog(wire: Wire, log: seq<seq<Json>>, messages: map<RowId, Json>) {
    forall id :: id in messages ==> wire.decode(messages[id]).Some? && InLog(wire, log, wire.decode(messages[id]).value)
  }

  /** The claimed rows split into messages to publish and rows the gate refuses. */
  function Prepared(wire: Wire, rows: map<RowId, Row>, ids: set<RowId>): Relay
    requires ids <= rows.Keys
  {
    Relay(map id | id in ids && wire.encode(rows[id].event).Some? :: wire.encode(rows[id].event).value,
          set id | id in ids && wire.encode(rows[id].event).None?, false)
  }

  /** Rows still leased under the token change; a relay whose lease was recovered matches none. */
  function Finish(rows: map<RowId, Row>, ids: set<RowId>, token: Token, status: RowStatus): map<RowId, Row> {
    map id | id in rows ::
      if id in ids && rows[id].status == Leased(token) then rows[id].(status := status) else rows[id]
  }

  ghost predicate Enabled(s: Stream, e: Step) {
    match e
    case Record(event) =>
      && event.eventId !in s.rows
      && (forall t :: t in s.relays ==> event.eventId !in s.relays[t].messages && event.eventId !in s.relays[t].invalid)
      && s.wire.stores(event) && event.payload.version == |HistoryOf(s, event.payload.bookingId)| + 1
    case Claim(token, ids) =>
      && token !in s.relays && (forall id :: id in s.rows ==> s.rows[id].status != Leased(token))
      && ids <= s.rows.Keys && forall id :: id in ids ==> s.rows[id].status.Owes()
    case MarkFailed(token) => token in s.relays
    case Append(token, id, p) => token in s.relays && id in s.relays[token].messages && p < |s.log|
    case Noise(m, p) => p < |s.log| && s.wire.decode(m).None?
    case Acknowledge(token) => token in s.relays && AllInLog(s.wire, s.log, s.relays[token].messages)
    case MarkPublished(token) => token in s.relays && s.relays[token].acknowledged
    case MarkRetry(token) => token in s.relays
    case Die(token) => token in s.relays
    case Collect(id) => id in s.rows && s.rows[id].status == Processed
    case Handle(p, n) => s.active && p < |s.log| && p < |s.read| && s.read[p] + n <= |s.log[p]|
    case Commit(p) => s.active && p < |s.committed| && p < |s.read|
    case StartConsumer => !s.active
    case StopConsumer => true
    case Rewind => !s.active
    case DeleteFacts(keys) => !s.active && forall p :: 0 <= p < |s.committed| ==> s.committed[p] == 0
  }

  ghost function Next(s: Stream, e: Step): Stream
    requires Enabled(s, e)
  {
    match e
    case Record(event) =>
      var key := event.payload.bookingId;
      s.(history := s.history[key := HistoryOf(s, key) + [ToEntry(event).fact]],
         rows := s.rows[event.eventId := Row(event, Waiting)])
    case Claim(token, ids) =>
      s.(rows := map id | id in s.rows :: if id in ids then s.rows[id].(status := Leased(token)) else s.rows[id],
         relays := s.relays[token := Prepared(s.wire, s.rows, ids)])
    case MarkFailed(token) =>
      var invalid := s.relays[token].invalid;
      var marked := set id | id in invalid && id in s.rows && s.rows[id].status == Leased(token) :: s.rows[id].event;
      s.(rows := Finish(s.rows, invalid, token, Refused), refused := s.refused + marked)
    case Append(token, id, p) => s.(log := s.log[p := s.log[p] + [s.relays[token].messages[id]]])
    case Noise(m, p) => s.(log := s.log[p := s.log[p] + [m]])
    case Acknowledge(token) => s.(relays := s.relays[token := s.relays[token].(acknowledged := true)])
    case MarkPublished(token) =>
      s.(rows := Finish(s.rows, s.relays[token].messages.Keys, token, Processed), relays := s.relays - {token})
    case MarkRetry(token) =>
      s.(rows := Finish(s.rows, s.relays[token].messages.Keys, token, Waiting), relays := s.relays - {token})
    case Die(token) => s.(relays := s.relays - {token})
    case Collect(id) => s.(rows := s.rows - {id})
    case Handle(p, n) =>
      s.(facts := Fold(s.facts, Carried(s.wire, s.log[p][s.read[p]..s.read[p] + n])),
         read := s.read[p := s.read[p] + n])
    case Commit(p) => s.(committed := s.committed[p := s.read[p]])
    case StartConsumer => s.(active := true, read := s.committed)
    case StopConsumer => s.(active := false, read := s.committed)
    case Rewind => s.(committed := seq(|s.committed|, _ => 0), read := seq(|s.committed|, _ => 0))
    case DeleteFacts(keys) => s.(facts := s.facts - keys)
  }

  type Run = seq<Step>

  ghost predicate ValidRun(s: Stream, run: Run)
    decreases |run|
  {
    run == [] || (Enabled(s, run[0]) && ValidRun(Next(s, run[0]), run[1..]))
  }

  ghost function After(s: Stream, run: Run): Stream
    requires ValidRun(s, run)
    decreases |run|
  {
    if run == [] then s else After(Next(s, run[0]), run[1..])
  }

  /** A batch carries what its messages decode to. */
  lemma {:induction false} CarriedDecodes(wire: Wire, batch: seq<Json>, e: Entry)
    ensures e in Carried(wire, batch) <==> exists i :: 0 <= i < |batch| && wire.decode(batch[i]) == Some(e)
  {
    if batch != [] {
      var n := |batch| - 1;
      var init := batch[..n];
      CarriedDecodes(wire, init, e);
      assert forall i :: 0 <= i < n ==> init[i] == batch[i];
      if wire.decode(batch[n]) == Some(e) { assert e in Carried(wire, batch); }
      if e in Carried(wire, init) { assert e in Carried(wire, batch); }
    }
  }

  // ---- the invariant ----

  type History = map<string, seq<Fact>>

  /** The entry is a recorded change of its booking, stored under its version. */
  ghost predicate Known(h: History, e: Entry) {
    e.key in h && 1 <= e.fact.version <= |h[e.key]| && h[e.key][e.fact.version - 1] == e.fact
  }

  /** Some row still owes this entry to the log. */
  ghost predicate Owed(rows: map<RowId, Row>, e: Entry) {
    exists id :: id in rows && EntryOf(rows[id]) == e && rows[id].status.Owes()
  }

  ghost predicate WasRefused(refused: set<Received>, e: Entry) { exists r :: r in refused && ToEntry(r) == e }

  ghost predicate VersionsCount(h: History) {
    forall k, i :: k in h && 0 <= i < |h[k]| ==> h[k][i].version == i + 1
  }

  /** Every recorded change is in the log, still owed to it, or was refused by the gate. */
  ghost predicate NothingLost(s: Stream) {
    forall e :: Known(s.history, e) ==> InLog(s.wire, s.log, e) || Owed(s.rows, e) || WasRefused(s.refused, e)
  }

  /** Whatever the consumer can read is a recorded change. */
  ghost predicate LogKnown(wire: Wire, h: History, log: seq<seq<Json>>) {
    forall p, i :: 0 <= p < |log| && 0 <= i < |log[p]| && wire.decode(log[p][i]).Some? ==>
      Known(h, wire.decode(log[p][i]).value)
  }

  ghost predicate RowsKnown(wire: Wire, h: History, rows: map<RowId, Row>) {
    forall id :: id in rows ==>
      Known(h, EntryOf(rows[id])) && wire.stores(rows[id].event)
  }

  ghost predicate FactsKnown(h: History, facts: Table) {
    forall k :: k in facts ==> Known(h, Entry(k, facts[k]))
  }

  /** Only changes that the gate cannot encode are refused. */
  ghost predicate RefusedInvalid(wire: Wire, h: History, refused: set<Received>) {
    forall r :: r in refused ==> Known(h, ToEntry(r)) && wire.encode(r).None?
  }

  /**
   * A relay sends what its rows say, refuses what the gate refuses, and is acknowledged only for what is in the log.
   */
  ghost predicate RelayHonest(wire: Wire, h: History, log: seq<seq<Json>>, rows: map<RowId, Row>, relay: Relay) {
    && (forall id :: id in relay.messages ==>
          wire.decode(relay.messages[id]).Some? && Known(h, wire.decode(relay.messages[id]).value))
    && (forall id :: id in relay.messages && id in rows ==> wire.decode(relay.messages[id]) == Some(EntryOf(rows[id])))
    && (forall id :: id in relay.invalid && id in rows ==> wire.encode(rows[id].event).None?)
    && (relay.acknowledged ==> AllInLog(wire, log, relay.messages))
  }

  ghost predicate RelaysHonest(s: Stream) {
    forall t :: t in s.relays ==> RelayHonest(s.wire, s.history, s.log, s.rows, s.relays[t])
  }

  ghost predicate Reached(facts: Table, e: Entry) {
    e.key in facts && facts[e.key].version >= e.fact.version
  }

  /** Whatever can be read before the consumer's position has reached the table. */
  ghost predicate ReadIsApplied(s: Stream) {
    && |s.read| == |s.committed| == |s.log| && (!s.active ==> s.read == s.committed)
    && (forall p :: 0 <= p < |s.log| ==> s.committed[p] <= s.read[p] <= |s.log[p]|)
    && (forall p, i :: 0 <= p < |s.log| && 0 <= i < s.read[p] && s.wire.decode(s.log[p][i]).Some? ==>
          Reached(s.facts, s.wire.decode(s.log[p][i]).value))
  }

  ghost predicate Inv(s: Stream) {
    && s.wire.Faithful() && VersionsCount(s.history) && NothingLost(s)
    && LogKnown(s.wire, s.history, s.log) && RowsKnown(s.wire, s.history, s.rows) && FactsKnown(s.history, s.facts)
    && RefusedInvalid(s.wire, s.history, s.refused) && RelaysHonest(s) && ReadIsApplied(s)
  }

  /** Recording adds the new change to what is known, and nothing else. */
  lemma KnownGrows(s: Stream, e: Step, x: Entry)
    requires Enabled(s, e) && e.Record?
    ensures Known(Next(s, e).history, x) <==> Known(s.history, x) || x == ToEntry(e.event)
  {
  }

  lemma RecordLosesNothing(s: Stream, e: Step)
    requires NothingLost(s) && Enabled(s, e) && e.Record?
    ensures NothingLost(Next(s, e))
  {
    var s' := Next(s, e);
    forall x | Known(s'.history, x) ensures InLog(s.wire, s.log, x) || Owed(s'.rows, x) || WasRefused(s.refused, x) {
      KnownGrows(s, e, x);
      if x == ToEntry(e.event) {
        assert EntryOf(s'.rows[e.event.eventId]) == x;
      } else if !InLog(s.wire, s.log, x) && !WasRefused(s.refused, x) {
        var id :| id in s.rows && EntryOf(s.rows[id]) == x && s.rows[id].status.Owes();
        assert s'.rows[id] == s.rows[id];
      }
    }
  }

  lemma RecordHonest(s: Stream, e: Step)
    requires Inv(s) && Enabled(s, e) && e.Record?
    ensures RelaysHonest(Next(s, e))
  {
    var s' := Next(s, e);
    forall x | Known(s.history, x) ensures Known(s'.history, x) {
      KnownGrows(s, e, x);
    }
    forall t | t in s'.relays ensures RelayHonest(s'.wire, s'.history, s'.log, s'.rows, s'.relays[t]) {
      assert RelayHonest(s.wire, s.history, s.log, s.rows, s.relays[t]);
    }
  }

  lemma RecordKeeps(s: Stream, e: Step)
    requires Inv(s) && Enabled(s, e) && e.Record?
    ensures Inv(Next(s, e))
  {
    var s' := Next(s, e);
    RecordLosesNothing(s, e);
    RecordHonest(s, e);
    forall x ensures Known(s'.history, x) <==> Known(s.history, x) || x == ToEntry(e.event) {
      KnownGrows(s, e, x);
    }
  }

  /** A row may stop owing its entry once that is in the log or refused; nothing else loses an entry. */
  lemma NothingLostByRows(s: Stream, s': Stream)
    requires NothingLost(s) && s'.wire == s.wire && s'.history == s.history
    requires s'.log == s.log && s.refused <= s'.refused
    requires forall id :: id in s.rows && s.rows[id].status.Owes() ==>
      || InLog(s.wire, s.log, EntryOf(s.rows[id]))
      || s.rows[id].event in s'.refused
      || (id in s'.rows && EntryOf(s'.rows[id]) == EntryOf(s.rows[id]) && s'.rows[id].status.Owes())
    ensures NothingLost(s')
  {
    forall x | Known(s.history, x) ensures InLog(s.wire, s.log, x) || Owed(s'.rows, x) || WasRefused(s'.refused, x) {
      if WasRefused(s.refused, x) {
        var r :| r in s.refused && ToEntry(r) == x;
        assert r in s'.refused;
      } else if !InLog(s.wire, s.log, x) {
        var id :| id in s.rows && EntryOf(s.rows[id]) == x && s.rows[id].status.Owes();
        if s.rows[id].event in s'.refused { assert ToEntry(s.rows[id].event) == x; }
      }
    }
  }

  /** What a relay prepares from known rows is honest. */
  lemma PreparedIsHonest(s: Stream, ids: set<RowId>, rows: map<RowId, Row>)
    requires s.wire.Faithful() && RowsKnown(s.wire, s.history, s.rows) && ids <= s.rows.Keys && SameEvents(s.rows, rows)
    ensures RelayHonest(s.wire, s.history, s.log, rows, Prepared(s.wire, s.rows, ids))
  {
  }

  /** Rows may go or change status, but what they record stays. */
  ghost predicate SameEvents(rows: map<RowId, Row>, rows': map<RowId, Row>) {
    forall id :: id in rows' ==> id in rows && rows'[id].event == rows[id].event
  }

  /** Steps that touch rows, relays and refusals only. */
  ghost predicate OnlyRows(s: Stream, s': Stream) {
    && s'.wire == s.wire && s'.history == s.history && s'.log == s.log && s'.facts == s.facts
    && s'.read == s.read && s'.committed == s.committed && s'.active == s.active
    && SameEvents(s.rows, s'.rows)
  }

  lemma RowsKeep(s: Stream, s': Stream)
    requires Inv(s) && OnlyRows(s, s') && NothingLost(s') && RelaysHonest(s')
    requires RefusedInvalid(s'.wire, s'.history, s'.refused)
    ensures Inv(s')
  {
  }

  lemma HonestStays(s: Stream, rows: map<RowId, Row>, t: Token)
    requires RelaysHonest(s) && t in s.relays && SameEvents(s.rows, rows)
    ensures RelayHonest(s.wire, s.history, s.log, rows, s.relays[t])
  {
    assert RelayHonest(s.wire, s.history, s.log, s.rows, s.relays[t]);
  }

  lemma ClaimHonest(s: Stream, e: Step)
    requires Inv(s) && Enabled(s, e) && e.Claim?
    ensures RelaysHonest(Next(s, e)) && OnlyRows(s, Next(s, e))
  {
    var s' := Next(s, e);
    assert SameEvents(s.rows, s'.rows);
    PreparedIsHonest(s, e.ids, s'.rows);
    forall t | t in s'.relays && t != e.token ensures RelayHonest(s.wire, s.history, s.log, s'.rows, s.relays[t]) {
      HonestStays(s, s'.rows, t);
    }
  }

  lemma ClaimKeeps(s: Stream, e: Step)
    requires Inv(s) && Enabled(s, e) && e.Claim?
    ensures Inv(Next(s, e))
  {
    ClaimHonest(s, e);
    NothingLostByRows(s, Next(s, e));
    RowsKeep(s, Next(s, e));
  }

  /** A relay stays honest while rows keep what they record and the log its own. */
  lemma HonestUnderRows(s: Stream, s': Stream)
    requires RelaysHonest(s) && s'.wire == s.wire && s'.history == s.history
    requires s'.log == s.log && s'.relays.Keys <= s.relays.Keys
    requires SameEvents(s.rows, s'.rows)
    requires forall t :: t in s'.relays ==>
      s'.relays[t].messages == s.relays[t].messages && s'.relays[t].invalid == s.relays[t].invalid
    requires forall t :: t in s'.relays && s'.relays[t].acknowledged && !s.relays[t].acknowledged ==>
      AllInLog(s.wire, s.log, s.relays[t].messages)
    ensures RelaysHonest(s')
  {
    forall t | t in s'.relays ensures RelayHonest(s'.wire, s'.history, s'.log, s'.rows, s'.relays[t]) {
      assert RelayHonest(s.wire, s.history, s.log, s.rows, s.relays[t]);
    }
  }

  lemma AcknowledgedInLog(s: Stream, t: Token)
    requires RelaysHonest(s) && t in s.relays && s.relays[t].acknowledged
    ensures forall id :: id in s.relays[t].messages && id in s.rows ==> InLog(s.wire, s.log, EntryOf(s.rows[id]))
  {
    assert RelayHonest(s.wire, s.history, s.log, s.rows, s.relays[t]);
  }

  lemma FinishLosesNothing(s: Stream, e: Step)
    requires Inv(s) && Enabled(s, e) && (e.MarkPublished? || e.MarkRetry?)
    ensures NothingLost(Next(s, e))
  {
    if e.MarkPublished? { AcknowledgedInLog(s, e.token); }
    NothingLostByRows(s, Next(s, e));
  }

  lemma FinishKeeps(s: Stream, e: Step)
    requires Inv(s) && Enabled(s, e) && (e.MarkPublished? || e.MarkRetry?)
    ensures Inv(Next(s, e))
  {
    FinishLosesNothing(s, e);
    HonestUnderRows(s, Next(s, e));
    RowsKeep(s, Next(s, e));
  }

  lemma RefusalsInvalid(s: Stream, e: Step)
    requires Inv(s) && Enabled(s, e) && e.MarkFailed?
    ensures RefusedInvalid(s.wire, s.history, Next(s, e).refused)
  {
    assert RelayHonest(s.wire, s.history, s.log, s.rows, s.relays[e.token]);
  }

  lemma RowsLoseNothing(s: Stream, e: Step)
    requires Inv(s) && Enabled(s, e) && (e.MarkFailed? || e.Collect?)
    ensures NothingLost(Next(s, e))
  {
    NothingLostByRows(s, Next(s, e));
  }

  lemma RefuseKeeps(s: Stream, e: Step)
    requires Inv(s) && Enabled(s, e) && e.MarkFailed?
    ensures Inv(Next(s, e))
  {
    RefusalsInvalid(s, e);
    RowsLoseNothing(s, e);
    HonestUnderRows(s, Next(s, e));
    RowsKeep(s, Next(s, e));
  }

  lemma CollectKeeps(s: Stream, e: Step)
    requires Inv(s) && Enabled(s, e) && e.Collect?
    ensures Inv(Next(s, e))
  {
    RowsLoseNothing(s, e);
    HonestUnderRows(s, Next(s, e));
    RowsKeep(s, Next(s, e));
  }

  lemma RelayKeeps(s: Stream, e: Step)
    requires Inv(s) && Enabled(s, e) && (e.Acknowledge? || e.Die?)
    ensures Inv(Next(s, e))
  {
    assert NothingLost(Next(s, e));
    HonestUnderRows(s, Next(s, e));
    RowsKeep(s, Next(s, e));
  }

  lemma LogGrows(wire: Wire, log: seq<seq<Json>>, p: nat, m: Json, x: Entry)
    requires p < |log|
    ensures InLog(wire, log, x) ==> InLog(wire, log[p := log[p] + [m]], x)
  {
    if InLog(wire, log, x) {
      var q, i :| 0 <= q < |log| && 0 <= i < |log[q]| && wire.decode(log[q][i]) == Some(x);
      assert log[p := log[p] + [m]][q][i] == log[q][i];
    }
  }

  /** A longer log keeps everything, if what was added is a recorded change or unreadable. */
  lemma LogKeeps(s: Stream, p: nat, m: Json)
    requires Inv(s) && p < |s.log|
    requires s.wire.decode(m).Some? ==> Known(s.history, s.wire.decode(m).value)
    ensures Inv(s.(log := s.log[p := s.log[p] + [m]]))
  {
    var s' := s.(log := s.log[p := s.log[p] + [m]]);
    forall x | InLog(s.wire, s.log, x) ensures InLog(s.wire, s'.log, x) {
      LogGrows(s.wire, s.log, p, m, x);
    }
    AppendedKnown(s, p, m);
    forall t | t in s'.relays ensures RelayHonest(s'.wire, s'.history, s'.log, s'.rows, s'.relays[t]) {
      assert RelayHonest(s.wire, s.history, s.log, s.rows, s.relays[t]);
    }
  }

  lemma AppendedKnown(s: Stream, p: nat, m: Json)
    requires Inv(s) && p < |s.log|
    requires s.wire.decode(m).Some? ==> Known(s.history, s.wire.decode(m).value)
    ensures var s' := s.(log := s.log[p := s.log[p] + [m]]); LogKnown(s.wire, s.history, s'.log) && ReadIsApplied(s')
  {
  }

  lemma AppendKeeps(s: Stream, e: Step)
    requires Inv(s) && Enabled(s, e) && (e.Append? || e.Noise?)
    ensures Inv(Next(s, e))
  {
    if e.Append? {
      assert RelayHonest(s.wire, s.history, s.log, s.rows, s.relays[e.token]);
      LogKeeps(s, e.partition, s.relays[e.token].messages[e.id]);
    } else {
      LogKeeps(s, e.partition, e.message);
    }
  }

  lemma HandleKnown(s: Stream, e: Step)
    requires Inv(s) && Enabled(s, e) && e.Handle?
    ensures FactsKnown(s.history, Next(s, e).facts)
  {
    var s' := Next(s, e);
    var batch := s.log[e.partition][s.read[e.partition]..s.read[e.partition] + e.count];
    var entries := Carried(s.wire, batch);
    forall k | k in s'.facts ensures Known(s.history, Entry(k, s'.facts[k])) {
      var x := Entry(k, s'.facts[k]);
      FoldFromSomewhere(s.facts, entries, k);
      if x in entries {
        CarriedDecodes(s.wire, batch, x);
        var j :| 0 <= j < |batch| && s.wire.decode(batch[j]) == Some(x);
        assert s.log[e.partition][s.read[e.partition] + j] == batch[j];
      }
    }
  }

  lemma HandleApplies(s: Stream, e: Step)
    requires ReadIsApplied(s) && Enabled(s, e) && e.Handle?
    ensures ReadIsApplied(Next(s, e))
  {
    var s' := Next(s, e);
    var batch := s.log[e.partition][s.read[e.partition]..s.read[e.partition] + e.count];
    var entries := Carried(s.wire, batch);
    forall p, i | 0 <= p < |s.log| && 0 <= i < s'.read[p] && s.wire.decode(s.log[p][i]).Some?
      ensures Reached(s'.facts, s.wire.decode(s.log[p][i]).value)
    {
      var x := s.wire.decode(s.log[p][i]).value;
      if i < s.read[p] {
        FoldNeverOlder(s.facts, entries, x.key);
      } else {
        assert batch[i - s.read[p]] == s.log[p][i];
        CarriedDecodes(s.wire, batch, x);
        FoldReaches(s.facts, entries, x);
      }
    }
  }

  /** Steps of the consumer touch its position and the table only. */
  lemma ReaderKeeps(s: Stream, s': Stream)
    requires Inv(s) && s'.(read := s.read, committed := s.committed, active := s.active, facts := s.facts) == s
    requires FactsKnown(s.history, s'.facts) && ReadIsApplied(s')
    ensures Inv(s')
  {
    assert NothingLost(s') && RelaysHonest(s');
  }

  lemma HandleKeeps(s: Stream, e: Step)
    requires Inv(s) && Enabled(s, e) && e.Handle?
    ensures Inv(Next(s, e))
  {
    HandleKnown(s, e);
    HandleApplies(s, e);
    ReaderKeeps(s, Next(s, e));
  }

  lemma ConsumerKeeps(s: Stream, e: Step)
    requires Inv(s) && Enabled(s, e)
    requires e.Commit? || e.StartConsumer? || e.StopConsumer? || e.Rewind? || e.DeleteFacts?
    ensures Inv(Next(s, e))
  {
    ReaderKeeps(s, Next(s, e));
  }

  lemma StepKeeps(s: Stream, e: Step)
    requires Inv(s) && Enabled(s, e)
    ensures Inv(Next(s, e))
  {
    if e.Record? { RecordKeeps(s, e); }
    else if e.Claim? { ClaimKeeps(s, e); }
    else if e.MarkFailed? { RefuseKeeps(s, e); }
    else if e.Append? || e.Noise? { AppendKeeps(s, e); }
    else if e.Handle? { HandleKeeps(s, e); }
    else if e.MarkPublished? || e.MarkRetry? { FinishKeeps(s, e); }
    else if e.Collect? { CollectKeeps(s, e); }
    else if e.Acknowledge? || e.Die? { RelayKeeps(s, e); }
    else { ConsumerKeeps(s, e); }
  }

  lemma {:induction false} RunKeeps(s: Stream, run: Run)
    requires Inv(s) && ValidRun(s, run)
    ensures Inv(After(s, run))
    decreases |run|
  {
    if run != [] {
      StepKeeps(s, run[0]);
      RunKeeps(Next(s, run[0]), run[1..]);
    }
  }

  lemma EmptyInv(wire: Wire, partitions: nat)
    requires wire.Faithful()
    ensures Inv(Empty(wire, partitions))
  {
  }

  // ---- agreement once everything has drained ----

  /** No row is waiting or leased, and the consumer has read every partition to its end. */
  ghost predicate Drained(s: Stream) {
    && (forall id :: id in s.rows ==> !s.rows[id].status.Owes())
    && |s.read| == |s.log| && forall p :: 0 <= p < |s.log| ==> s.read[p] == |s.log[p]|
  }

  function Latest(s: Stream, k: string): Fact
    requires k in s.history && s.history[k] != []
  {
    s.history[k][|s.history[k]| - 1]
  }

  /** A drained table shows a booking's latest change, unless the gate refused that very change. */
  lemma LatestReached(s: Stream, k: string)
    requires Inv(s) && Drained(s) && k in s.history && s.history[k] != []
    requires !WasRefused(s.refused, Entry(k, Latest(s, k)))
    ensures k in s.facts && s.facts[k] == Latest(s, k)
  {
    var latest := Entry(k, Latest(s, k));
    assert Known(s.history, latest);
    assert !Owed(s.rows, latest);
    var p, i :| 0 <= p < |s.log| && 0 <= i < |s.log[p]| && s.wire.decode(s.log[p][i]) == Some(latest);
    assert Reached(s.facts, latest);
    assert Known(s.history, Entry(k, s.facts[k]));
  }

  /**
   * Duplicates, reordered retries, foreign messages, dead relays, replayed batches, retention and interrupted
   * rebuilds: after any of them, a drained stream leaves for every booking exactly its latest change, if the gate
   * passes every recorded change.
   */
  lemma ReadModelConverges(wire: Wire, partitions: nat, run: Run)
    requires wire.Faithful() && ValidRun(Empty(wire, partitions), run) && Drained(After(Empty(wire, partitions), run))
    requires forall i :: 0 <= i < |run| && run[i].Record? ==> wire.encode(run[i].event).Some?
    ensures
      var s := After(Empty(wire, partitions), run);
      && s.facts.Keys == (set k | k in s.history && s.history[k] != [])
      && forall k :: k in s.facts ==> s.facts[k] == Latest(s, k)
  {
    EmptyInv(wire, partitions);
    RunKeeps(Empty(wire, partitions), run);
    NothingRefused(Empty(wire, partitions), run);
    Converged(After(Empty(wire, partitions), run));
  }

  lemma Converged(s: Stream)
    requires Inv(s) && Drained(s) && s.refused == {}
    ensures s.facts.Keys == (set k | k in s.history && s.history[k] != [])
    ensures forall k :: k in s.facts ==> k in s.history && s.history[k] != [] && s.facts[k] == Latest(s, k)
  {
    forall k | k in s.history && s.history[k] != [] ensures k in s.facts && s.facts[k] == Latest(s, k) {
      LatestReached(s, k);
    }
    forall k | k in s.facts ensures k in s.history && s.history[k] != [] {
      assert Known(s.history, Entry(k, s.facts[k]));
    }
  }

  ghost predicate AllPass(s: Stream) { s.refused == {} && forall id :: id in s.rows ==>
    s.wire.encode(s.rows[id].event).Some? }

  lemma PassingStep(s: Stream, e: Step)
    requires RelaysHonest(s) && Enabled(s, e) && AllPass(s) && (e.Record? ==> s.wire.encode(e.event).Some?)
    ensures AllPass(Next(s, e)) && Next(s, e).wire == s.wire
  {
    if e.MarkFailed? { assert RelayHonest(s.wire, s.history, s.log, s.rows, s.relays[e.token]); }
  }

  /** What the gate passes is never refused. */
  lemma {:induction false} NothingRefused(s: Stream, run: Run)
    requires Inv(s) && ValidRun(s, run) && AllPass(s)
    requires forall i :: 0 <= i < |run| && run[i].Record? ==> s.wire.encode(run[i].event).Some?
    ensures AllPass(After(s, run))
    decreases |run|
  {
    if run != [] {
      PassingStep(s, run[0]);
      StepKeeps(s, run[0]);
      assert forall i :: 0 <= i < |run| - 1 ==> run[1..][i] == run[i + 1];
      NothingRefused(Next(s, run[0]), run[1..]);
    }
  }

  // ---- the wire the system runs ----

  /** The relay's gate on the stored payload, then the envelope. */
  function Published(iso: set<string>, r: Received): Option<Json> {
    match ParsePayload(iso, JObj(PayloadFields(r.payload)))
    case None => None
    case Some(p) => Some(ToMessage(r.eventId, r.occurredAt, p))
  }

  /** What the consumer makes of one message. */
  function Decoded(iso: set<string>, m: Json): Option<Entry> {
    match ParseMessage(iso, Some(m))
    case None => None
    case Some(r) => Some(ToEntry(r))
  }

  predicate Storable(r: Received) { IsUuid(r.eventId) && MIN_STORABLE <= r.occurredAt <= MAX_STORABLE }

  function JsonWire(iso: set<string>): Wire { Wire(r => Published(iso, r), m => Decoded(iso, m), Storable) }

  lemma PublishedDecodes(iso: set<string>, r: Received)
    requires Storable(r)
    ensures Published(iso, r).Some? <==> ValidPayload(iso, r.payload)
    ensures Published(iso, r).Some? ==> Decoded(iso, Published(iso, r).value) == Some(ToEntry(r))
  {
    GateIsExact(iso, r.payload);
    if ValidPayload(iso, r.payload) { MessageRoundTrip(iso, r.eventId, r.occurredAt, r.payload); }
  }

  /** The consumer reads back exactly the facts the relay published, and the gate passes exactly the valid payloads. */
  lemma JsonWireIsFaithful(iso: set<string>)
    ensures JsonWire(iso).Faithful()
    ensures forall r :: Storable(r) ==> (JsonWire(iso).encode(r).Some? <==> ValidPayload(iso, r.payload))
  {
    forall r | Storable(r)
      ensures Published(iso, r).Some? <==> ValidPayload(iso, r.payload)
      ensures Published(iso, r).Some? ==> Decoded(iso, Published(iso, r).value) == Some(ToEntry(r))
    {
      PublishedDecodes(iso, r);
    }
  }

  function Values(batch: seq<Json>): seq<Option<Json>> { seq(|batch|, i requires 0 <= i < |batch| => Some(batch[i])) }

  /** Handling a batch is what the projection does with its messages. */
  lemma {:induction false} CarriedIsEntries(iso: set<string>, batch: seq<Json>)
    ensures Carried(JsonWire(iso), batch) == Entries(iso, Values(batch))
  {
    if batch != [] {
      var n := |batch| - 1;
      CarriedIsEntries(iso, batch[..n]);
      assert Values(batch)[..n] == Values(batch[..n]);
    }
  }
}
