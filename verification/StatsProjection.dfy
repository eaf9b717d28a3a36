/** The booking-statistics read model: one fact per booking, written by a version-guarded upsert. */
module StatsProjection {
  import opened Options
  import opened BookingModel
  import opened LifecycleCodec

  datatype Fact = Fact(
    version: int, status: Status, roomId: string, roomTypeId: string, checkIn: string, checkOut: string,
    amount: int, currency: string, eventId: string, occurredAt: int)

  /** One row of the read model and the booking it is keyed by. */
  datatype Entry = Entry(key: string, fact: Fact)

  type Table = map<string, Fact>

  function ToEntry(e: Received): Entry {
    var p := e.payload;
    Entry(p.bookingId, Fact(p.version, p.to, p.stay.roomId, p.stay.roomTypeId, p.stay.checkIn, p.stay.checkOut,
                            p.amount, p.currency, e.eventId, e.occurredAt))
  }

  // ---- the meaning: replace if newer, one message at a time ----

  function Put(t: Table, e: Entry): Table {
    if e.key in t && t[e.key].version >= e.fact.version then t else t[e.key := e.fact]
  }

  function Fold(t: Table, es: seq<Entry>): Table {
    if es == [] then t else Put(Fold(t, es[..|es| - 1]), es[|es| - 1])
  }

  lemma {:induction false} FoldSplits(t: Table, a: seq<Entry>, b: seq<Entry>)
    ensures Fold(t, a + b) == Fold(Fold(t, a), b)
  {
    if b == [] {
      assert a + b == a;
    } else {
      FoldSplits(t, a, b[..|b| - 1]);
      assert (a + b)[..|a + b| - 1] == a + b[..|b| - 1];
    }
  }

  /** What a fold leaves: every key keeps its old row or takes one of the messages. */
  lemma {:induction false} FoldFromSomewhere(t: Table, es: seq<Entry>, k: string)
    requires k in Fold(t, es)
    ensures (k in t && Fold(t, es)[k] == t[k]) || Entry(k, Fold(t, es)[k]) in es
  {
    if es != [] {
      var init, last := es[..|es| - 1], es[|es| - 1];
      assert es == init + [last];
      if k in Fold(t, init) && Fold(t, es)[k] == Fold(t, init)[k] { FoldFromSomewhere(t, init, k); }
    }
  }

  /** ... versions never go back ... */
  lemma {:induction false} FoldNeverOlder(t: Table, es: seq<Entry>, k: string)
    requires k in t
    ensures k in Fold(t, es) && Fold(t, es)[k].version >= t[k].version
  {
    if es != [] { FoldNeverOlder(t, es[..|es| - 1], k); }
  }

  /** ... and no message is missed. */
  lemma {:induction false} FoldReaches(t: Table, es: seq<Entry>, e: Entry)
    requires e in es
    ensures e.key in Fold(t, es) && Fold(t, es)[e.key].version >= e.fact.version
  {
    var init, last := es[..|es| - 1], es[|es| - 1];
    assert es == init + [last];
    if e in init { FoldReaches(t, init, e); }
  }

  /** A booking's version names one fact. */
  ghost predicate VersionsUnique(es: seq<Entry>) {
    forall i, j :: 0 <= i < |es| && 0 <= j < |es| ==>
      es[i].key == es[j].key && es[i].fact.version == es[j].fact.version ==> es[i] == es[j]
  }

  /** With unique versions, the table depends only on which messages arrived: not on order, repeats or batches. */
  lemma FoldIgnoresOrder(a: seq<Entry>, b: seq<Entry>)
    requires VersionsUnique(a) && forall e :: e in a <==> e in b
    ensures Fold(map[], a) == Fold(map[], b)
  {
    var fa, fb := Fold(map[], a), Fold(map[], b);
    forall k | k in fa ensures k in fb && fb[k] == fa[k] { SameNewest(a, b, k); }
    forall k | k in fb ensures k in fa { SameNewest(b, a, k); }
  }

  lemma SameNewest(a: seq<Entry>, b: seq<Entry>, k: string)
    requires forall e :: e in a <==> e in b
    requires VersionsUnique(a) || VersionsUnique(b)
    requires k in Fold(map[], a)
    ensures k in Fold(map[], b) && Fold(map[], b)[k] == Fold(map[], a)[k]
  {
    var ea := Entry(k, Fold(map[], a)[k]);
    FoldFromSomewhere(map[], a, k);
    FoldReaches(map[], b, ea);
    var eb := Entry(k, Fold(map[], b)[k]);
    FoldFromSomewhere(map[], b, k);
    FoldReaches(map[], a, eb);
  }

  // ---- the SQL: each assignment sees the results of those before it ----

  datatype Column = CStatus | CRoom | CRoomType | CCheckIn | CCheckOut | CAmount | CCurrency | CEvent | COccurred

  const REPLACED := [CStatus, CRoom, CRoomType, CCheckIn, CCheckOut, CAmount, CCurrency, CEvent, COccurred]

  function Copied(row: Fact, incoming: Fact, c: Column): Fact {
    match c
    case CStatus => row.(status := incoming.status)
    case CRoom => row.(roomId := incoming.roomId)
    case CRoomType => row.(roomTypeId := incoming.roomTypeId)
    case CCheckIn => row.(checkIn := incoming.checkIn)
    case CCheckOut => row.(checkOut := incoming.checkOut)
    case CAmount => row.(amount := incoming.amount)
    case CCurrency => row.(currency := incoming.currency)
    case CEvent => row.(eventId := incoming.eventId)
    case COccurred => row.(occurredAt := incoming.occurredAt)
  }

  function Assigned(row: Fact, incoming: Fact, columns: seq<Column>): Fact {
    if columns == [] then row
    else
      var before := Assigned(row, incoming, columns[..|columns| - 1]);
      if incoming.version > before.version then Copied(before, incoming, columns[|columns| - 1]) else before
  }

  function Greatest(row: Fact, incoming: Fact): Fact {
    row.(version := if row.version >= incoming.version then row.version else incoming.version)
  }

  /** Every replaced column first, the version last. */
  function GuardedUpdate(row: Fact, incoming: Fact): Fact {
    Greatest(Assigned(row, incoming, REPLACED), incoming)
  }

  lemma GuardedUpdateReplacesIfNewer(row: Fact, incoming: Fact)
    ensures GuardedUpdate(row, incoming) == if incoming.version > row.version then incoming else row
  {
    if incoming.version > row.version {
      AssignedTakes(row, incoming, REPLACED);
      var r := Assigned(row, incoming, REPLACED);
      forall c: Column ensures c in REPLACED {
        match c
        case CStatus => assert REPLACED[0] == c;
        case CRoom => assert REPLACED[1] == c;
        case CRoomType => assert REPLACED[2] == c;
        case CCheckIn => assert REPLACED[3] == c;
        case CCheckOut => assert REPLACED[4] == c;
        case CAmount => assert REPLACED[5] == c;
        case CCurrency => assert REPLACED[6] == c;
        case CEvent => assert REPLACED[7] == c;
        case COccurred => assert REPLACED[8] == c;
      }
      assert Copied(r, incoming, CStatus) == r && Copied(r, incoming, CRoom) == r;
      assert Copied(r, incoming, CRoomType) == r;
      assert Copied(r, incoming, CCheckIn) == r && Copied(r, incoming, CCheckOut) == r;
      assert Copied(r, incoming, CAmount) == r;
      assert Copied(r, incoming, CCurrency) == r && Copied(r, incoming, CEvent) == r;
      assert Copied(r, incoming, COccurred) == r;
    } else {
      AssignedToEqualVersion(row, incoming, REPLACED);
    }
  }

  /** While the version is still the stored one, every listed column takes the incoming value. */
  lemma {:induction false} AssignedTakes(row: Fact, incoming: Fact, columns: seq<Column>)
    requires incoming.version > row.version
    ensures Assigned(row, incoming, columns).version == row.version
    ensures forall c :: c in columns ==>
      Copied(Assigned(row, incoming, columns), incoming, c) == Assigned(row, incoming, columns)
  {
    if columns != [] {
      var init, last := columns[..|columns| - 1], columns[|columns| - 1];
      AssignedTakes(row, incoming, init);
      assert columns == init + [last];
    }
  }

  /** Assigning the version first would freeze every other column of a newer event. */
  lemma VersionMustComeLast(row: Fact, incoming: Fact)
    requires incoming.version > row.version && incoming.status != row.status
    ensures Assigned(Greatest(row, incoming), incoming, REPLACED).status == row.status
    ensures Assigned(Greatest(row, incoming), incoming, REPLACED) != incoming
  {
    AssignedToEqualVersion(Greatest(row, incoming), incoming, REPLACED);
  }

  lemma {:induction false} AssignedToEqualVersion(row: Fact, incoming: Fact, columns: seq<Column>)
    requires incoming.version <= row.version
    ensures Assigned(row, incoming, columns) == row
  {
    if columns != [] { AssignedToEqualVersion(row, incoming, columns[..|columns| - 1]); }
  }

  /** `INSERT ... ON DUPLICATE KEY UPDATE` of one row. */
  function Upserted(t: Table, e: Entry): (r: Table)
    ensures r == Put(t, e)
  {
    if e.key in t then
      GuardedUpdateReplacesIfNewer(t[e.key], e.fact);
      t[e.key := GuardedUpdate(t[e.key], e.fact)]
    else t[e.key := e.fact]
  }

  // ---- a batch, as the projection applies it ----

  /** Two tables merged: the right one wins only with a newer version. */
  function Merge(t: Table, n: Table): Table {
    map k | k in t.Keys + n.Keys :: if k in n && (k !in t || n[k].version > t[k].version) then n[k] else t[k]
  }

  /** Keeping only each booking's newest message of the batch loses nothing. */
  lemma {:induction false} FoldThroughNewest(t: Table, es: seq<Entry>)
    ensures Fold(t, es) == Merge(t, Fold(map[], es))
  {
    if es == [] {
      assert Merge(t, map[]) == t;
    } else {
      FoldThroughNewest(t, es[..|es| - 1]);
    }
  }

  lemma MergeOneMore(t: Table, n: Table, k: string)
    requires k in n
    ensures Merge(t, n) == Put(Merge(t, n - {k}), Entry(k, n[k]))
  {
    assert (n - {k}).Keys == n.Keys - {k};
  }

  /** Writing distinct keys in any order is the merge. */
  lemma {:induction false} FoldOfDistinct(t: Table, n: Table, rows: seq<Entry>)
    requires Lists(rows, n)
    ensures Fold(t, rows) == Merge(t, n)
  {
    if rows == [] {
      assert n == map[];
      assert Merge(t, n) == t;
    } else {
      var init, last := rows[..|rows| - 1], rows[|rows| - 1];
      forall k | k in n && k != last.key ensures Entry(k, n[k]) in init {
        var i :| 0 <= i < |rows| && rows[i] == Entry(k, n[k]);
        assert init[i] == Entry(k, n[k]);
      }
      FoldOfDistinct(t, n - {last.key}, init);
      MergeOneMore(t, n, last.key);
    }
  }

  /** The rows of a table, each exactly once. */
  ghost predicate Lists(rows: seq<Entry>, t: Table) {
    && (forall i, j :: 0 <= i < j < |rows| ==> rows[i].key != rows[j].key)
    && (forall i :: 0 <= i < |rows| ==> rows[i].key in t && t[rows[i].key] == rows[i].fact)
    && (forall k :: k in t ==> Entry(k, t[k]) in rows)
  }

  const CHUNK := 500
  const DELETE_BATCH := 1000

  /** The entries a batch really carries: a message the parser refuses contributes nothing. */
  function Entries(iso: set<string>, messages: seq<Option<Json>>): seq<Entry> {
    if messages == [] then []
    else
      var init := Entries(iso, messages[..|messages| - 1]);
      match ParseMessage(iso, messages[|messages| - 1])
      case None => init
      case Some(r) => init + [ToEntry(r)]
  }

  class FactStore {
    var facts: Table

    constructor ()
      ensures facts == map[]
    {
      facts := map[];
    }

    method UpsertChunk(chunk: seq<Entry>)
      modifies this
      ensures facts == Fold(old(facts), chunk)
    {
      var i := 0;
      assert chunk[..0] == [];
      while i < |chunk|
        invariant 0 <= i <= |chunk| && facts == Fold(old(facts), chunk[..i])
      {
        assert chunk[..i + 1][..i] == chunk[..i];
        facts := Upserted(facts, chunk[i]);
        i := i + 1;
      }
      assert chunk[..i] == chunk;
    }

    method Upsert(rows: seq<Entry>)
      modifies this
      ensures facts == Fold(old(facts), rows)
    {
      var start := 0;
      assert rows[..0] == [];
      while start < |rows|
        invariant 0 <= start <= |rows| && facts == Fold(old(facts), rows[..start])
      {
        var end := if start + CHUNK < |rows| then start + CHUNK else |rows|;
        UpsertChunk(rows[start..end]);
        FoldSplits(old(facts), rows[..start], rows[start..end]);
        assert rows[..start] + rows[start..end] == rows[..end];
        start := end;
      }
      assert rows[..start] == rows;
    }

    /** One fetched batch: newest version per booking, in some key order, in one transaction. */
    method ApplyBatch(iso: set<string>, messages: seq<Option<Json>>) returns (applied: nat, skipped: nat)
      modifies this
      ensures facts == Fold(old(facts), Entries(iso, messages))
      ensures applied == |Fold(map[], Entries(iso, messages))|
      ensures skipped == |messages| - |Entries(iso, messages)|
    {
      var newest: Table := map[];
      skipped := 0;
      var i := 0;
      assert messages[..0] == [];
      while i < |messages|
        invariant 0 <= i <= |messages|
        invariant newest == Fold(map[], Entries(iso, messages[..i]))
        invariant skipped == i - |Entries(iso, messages[..i])|
      {
        assert messages[..i + 1][..i] == messages[..i];
        ghost var entries := Entries(iso, messages[..i]);
        match ParseMessage(iso, messages[i]) {
          case None => skipped := skipped + 1;
          case Some(r) =>
            var e := ToEntry(r);
            assert (entries + [e])[..|entries|] == entries;
            if e.key !in newest || e.fact.version > newest[e.key].version {
              newest := newest[e.key := e.fact];
            }
        }
        i := i + 1;
      }
      assert messages[..i] == messages;
      var rows := Arranged(newest);
      FoldThroughNewest(facts, Entries(iso, messages));
      FoldOfDistinct(facts, newest, rows);
      applied := |rows|;
      if |rows| > 0 { Upsert(rows); }
    }

    /** Bounded deletes until one comes back short: the table ends empty and the total is exact. */
    method DeleteFacts() returns (total: nat)
      modifies this
      ensures facts == map[] && total == |old(facts)|
    {
      total := 0;
      while true
        invariant total + |facts| == |old(facts)|
        decreases |facts|
      {
        var doomed := SomeKeys(facts, DELETE_BATCH);
        ghost var before := facts;
        facts := facts - doomed;
        assert facts.Keys == before.Keys - doomed;
        total := total + |doomed|;
        if |doomed| < DELETE_BATCH { break; }
      }
    }
  }

  method Arranged(t: Table) returns (rows: seq<Entry>)
    ensures |rows| == |t| && Lists(rows, t)
  {
    rows := [];
    var todo := t.Keys;
    while todo != {}
      invariant todo <= t.Keys && |rows| + |todo| == |t|
      invariant forall i, j :: 0 <= i < j < |rows| ==> rows[i].key != rows[j].key
      invariant forall i :: 0 <= i < |rows| ==>
        rows[i].key in t && rows[i].key !in todo && t[rows[i].key] == rows[i].fact
      invariant forall k :: k in t && k !in todo ==> Entry(k, t[k]) in rows
    {
      var k :| k in todo;
      rows := rows + [Entry(k, t[k])];
      todo := todo - {k};
    }
  }

  method SomeKeys(t: Table, limit: nat) returns (keys: set<string>)
    ensures keys <= t.Keys
    ensures |keys| == if |t| <= limit then |t| else limit
    ensures |t| <= limit ==> keys == t.Keys
  {
    keys := {};
    var todo := t.Keys;
    while todo != {} && |keys| < limit
      invariant keys + todo == t.Keys && keys !! todo && |keys| <= limit && |keys| + |todo| == |t|
    {
      var k :| k in todo;
      keys := keys + {k};
      todo := todo - {k};
    }
  }
}
