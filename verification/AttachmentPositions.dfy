/** Positions of the attachments of one target, and the two-phase rewrite that keeps their unique key at every row. */
module AttachmentPositions {

  /** Larger than every configured album limit. */
  const REWRITE_OFFSET := 1_000

  type Id = nat

  /** The target's rows: attachment id to position. */
  type Table = map<Id, nat>

  /** The `(target, position)` key, which the database tests after every single row. */
  predicate UniqueKey(t: Table) { forall a, b :: a in t && b in t && t[a] == t[b] ==> a == b }

  /** Positions are exactly `0..n-1`, in the order of `ids`. */
  predicate Lists(t: Table, ids: seq<Id>) {
    (forall i :: 0 <= i < |ids| ==> ids[i] in t && t[ids[i]] == i)
    && forall a :: a in t ==> t[a] < |ids| && ids[t[a]] == a
  }

  predicate Distinct(ids: seq<Id>) { forall i, j :: 0 <= i < j < |ids| ==> ids[i] != ids[j] }

  function Members(ids: seq<Id>): set<Id> { set a | a in ids }

  /** `ids` names every row once. */
  ghost predicate NamesAll(t: Table, ids: seq<Id>) { Distinct(ids) && t.Keys == Members(ids) }

  ghost predicate Ascending(t: Table, ids: seq<Id>)
    requires Members(ids) <= t.Keys
  {
    forall i, j :: 0 <= i < j < |ids| ==> t[ids[i]] < t[ids[j]]
  }

  /** `ids` is the rows by ascending position. */
  ghost predicate InOrder(t: Table, ids: seq<Id>) { t.Keys == Members(ids) && Ascending(t, ids) }

  function IndexOf(ids: seq<Id>, a: Id): (r: nat)
    requires a in ids
    ensures r < |ids| && ids[r] == a
  {
    if ids[0] == a then 0 else 1 + IndexOf(ids[1..], a)
  }

  // ---- every state in the middle of either statement ----

  /** The first statement after the rows in `done`: their positions are shifted. */
  function Shifted(t: Table, done: set<Id>): Table {
    map a | a in t :: if a in done then t[a] + REWRITE_OFFSET else t[a]
  }

  /** The `CASE` list: each named row and its place in the list. */
  function Cases(ids: seq<Id>): (r: Table)
    ensures r.Keys == Members(ids) && UniqueKey(r) && forall a :: a in r ==> r[a] < |ids| && ids[r[a]] == a
  {
    map a | a in Members(ids) :: IndexOf(ids, a)
  }

  /** The second statement after the rows in `done`: they stand where the list names them. */
  function Placed(t: Table, cases: Table, done: set<Id>): Table {
    map a | a in t :: if a in done && a in cases then cases[a] else t[a]
  }

  /** No two positions lie the offset apart. */
  predicate Clear(t: Table) { forall a, b :: a in t && b in t ==> t[a] != t[b] + REWRITE_OFFSET }

  lemma ShiftKeepsKey(t: Table, done: set<Id>)
    requires UniqueKey(t) && Clear(t)
    ensures UniqueKey(Shifted(t, done))
  {}

  lemma ShiftCollides(t: Table, a: Id, b: Id)
    requires a in t && b in t && t[a] == t[b] + REWRITE_OFFSET
    ensures !UniqueKey(Shifted(t, {b}))
  {
    var mid := Shifted(t, {b});
    assert mid[a] == mid[b];
  }

  lemma ShiftOne(t: Table, done: set<Id>, a: Id)
    requires a in t && a !in done
    ensures Shifted(t, done)[a := Shifted(t, done)[a] + REWRITE_OFFSET] == Shifted(t, done + {a})
  {}

  /** The shift keeps the key whatever rows come first exactly when no two positions lie the offset apart. */
  lemma ShiftIsSafe(t: Table)
    ensures (forall done :: UniqueKey(Shifted(t, done)))
      <==> UniqueKey(t) && Clear(t)
  {
    if forall done :: UniqueKey(Shifted(t, done)) {
      assert UniqueKey(Shifted(t, {})) && Shifted(t, {}) == t;
      forall a, b | a in t && b in t ensures t[a] != t[b] + REWRITE_OFFSET {
        if t[a] == t[b] + REWRITE_OFFSET {
          assert UniqueKey(Shifted(t, {b}));
          ShiftCollides(t, a, b);
        }
      }
    }
  }

  predicate OutOfTheWay(t: Table) { forall a :: a in t ==> t[a] >= REWRITE_OFFSET }

  predicate InTheWay(t: Table) { forall a :: a in t ==> t[a] < REWRITE_OFFSET }

  lemma PlaceOne(t: Table, cases: Table, done: set<Id>, a: Id)
    requires a in t && a !in done && a in cases
    ensures Placed(t, cases, done)[a := cases[a]] == Placed(t, cases, done + {a})
  {}

  /** From shifted positions the second statement keeps the key whatever rows come first. */
  lemma PlaceIsSafe(t: Table, cases: Table, done: set<Id>)
    requires UniqueKey(t) && OutOfTheWay(t) && UniqueKey(cases) && InTheWay(cases)
    ensures UniqueKey(Placed(t, cases, done))
  {}

  /** Some of the rows, where they were. */
  predicate Remains(t: Table, rows: Table) { rows.Keys <= t.Keys && forall a :: a in rows ==> rows[a] == t[a] }

  lemma RemainsSpread(t: Table, order: seq<Id>, rows: Table)
    requires Lists(t, order) && |order| < REWRITE_OFFSET && Remains(t, rows)
    ensures UniqueKey(rows) && Clear(rows)
  {}

  lemma ShiftedAway(rows: Table)
    ensures Shifted(rows, {}) == rows
    ensures Shifted(rows, rows.Keys).Keys == rows.Keys && OutOfTheWay(Shifted(rows, rows.Keys))
  {}

  /**
   * From contiguous positions, with any rows gone, the two statements keep the key after every single row, whatever
   * rows either of them visits first, and end with the rows in the order asked for.
   */
  lemma RewriteIsSafe(t: Table, order: seq<Id>, rows: Table, ids: seq<Id>, done: set<Id>)
    requires Lists(t, order) && |order| < REWRITE_OFFSET && Remains(t, rows) && NamesAll(rows, ids)
    ensures Shifted(rows, {}) == rows && UniqueKey(Shifted(rows, done))
    ensures UniqueKey(Placed(Shifted(rows, rows.Keys), Cases(ids), done))
    ensures Lists(Placed(Shifted(rows, rows.Keys), Cases(ids), rows.Keys), ids)
  {
    RemainsSpread(t, order, rows);
    ShiftKeepsKey(rows, done);
    ShiftKeepsKey(rows, rows.Keys);
    ShiftedAway(rows);
    NamesFewer(t, order, rows, ids);
    PlaceIsSafe(Shifted(rows, rows.Keys), Cases(ids), done);
    PlacedLists(Shifted(rows, rows.Keys), ids);
  }

  lemma NamesFewer(t: Table, order: seq<Id>, rows: Table, ids: seq<Id>)
    requires Lists(t, order) && rows.Keys <= t.Keys && NamesAll(rows, ids)
    ensures |ids| <= |order|
  {
    Cardinality(ids);
    Cardinality(order);
    assert Members(ids) <= Members(order) by {
      forall a | a in Members(ids) ensures a in Members(order) { assert order[t[a]] == a; }
    }
    Subset(Members(ids), Members(order));
  }

  lemma Subset(a: set<Id>, b: set<Id>)
    requires a <= b
    ensures |a| <= |b|
  {
    assert b == a + (b - a);
  }

  /** Without the shift, some visiting order breaks the key whenever the order changes at all. */
  lemma OnePhaseCollides(t: Table, current: seq<Id>, ids: seq<Id>)
    requires Lists(t, current) && NamesAll(t, ids) && |ids| == |current|
    ensures (forall done :: UniqueKey(Placed(t, Cases(ids), done))) <==> ids == current
  {
    if ids == current {
      SamePlaces(t, current);
    } else {
      var i :| 0 <= i < |ids| && ids[i] != current[i];
      Displaced(t, current, ids, i);
    }
  }

  lemma SamePlaces(t: Table, ids: seq<Id>)
    requires Lists(t, ids)
    ensures forall done :: UniqueKey(Placed(t, Cases(ids), done))
  {
    forall done ensures UniqueKey(Placed(t, Cases(ids), done)) {
      assert Placed(t, Cases(ids), done) == t;
    }
  }

  lemma Displaced(t: Table, current: seq<Id>, ids: seq<Id>, i: nat)
    requires Lists(t, current) && NamesAll(t, ids) && i < |ids| == |current| && ids[i] != current[i]
    ensures !UniqueKey(Placed(t, Cases(ids), {ids[i]}))
  {
    var a, b, cases := ids[i], current[i], Cases(ids);
    assert a in Members(ids) && cases[a] == i;
    var mid := Placed(t, cases, {a});
    assert mid[a] == i && mid[b] == i;
  }

  lemma {:induction false} LowestExists(t: Table, rest: set<Id>) returns (low: Id)
    requires rest != {} && rest <= t.Keys
    ensures low in rest && forall b :: b in rest ==> t[low] <= t[b]
  {
    low :| low in rest;
    if rest != {low} {
      var other := LowestExists(t, rest - {low});
      if t[other] < t[low] { low := other; }
    }
  }

  function Removed(t: Table, id: Id): (r: Table)
    ensures r.Keys == t.Keys - {id} && forall a :: a in r ==> r[a] == t[a]
  {
    map a | a in t && a != id :: t[a]
  }

  function Without(ids: seq<Id>, i: nat): (r: seq<Id>)
    requires i < |ids|
    ensures |r| == |ids| - 1
    ensures forall k :: 0 <= k < |r| ==> r[k] == if k < i then ids[k] else ids[k + 1]
  {
    ids[..i] + ids[i + 1..]
  }

  lemma {:induction false} AgreeAt(t: Table, a: seq<Id>, b: seq<Id>, k: nat)
    requires InOrder(t, a) && InOrder(t, b) && k < |a|
    ensures k < |b| && a[k] == b[k]
    decreases k
  {
    forall i | 0 <= i < k ensures i < |b| && a[i] == b[i] {
      AgreeAt(t, a, b, i);
    }
    assert a[k] in Members(a);
    var i := IndexOf(b, a[k]);
    assert i >= k;
    assert b[k] in Members(b);
    var j := IndexOf(a, b[k]);
    assert j >= k;
    assert t[a[k]] <= t[a[j]] && t[b[k]] <= t[b[i]];
  }

  /** Two lists of the same rows by ascending position are the same list. */
  lemma InOrderOnce(t: Table, a: seq<Id>, b: seq<Id>)
    requires InOrder(t, a) && InOrder(t, b)
    ensures a == b
  {
    if |a| > 0 { AgreeAt(t, a, b, |a| - 1); }
    if |b| > 0 { AgreeAt(t, b, a, |b| - 1); }
    forall k | 0 <= k < |a| ensures a[k] == b[k] {
      AgreeAt(t, a, b, k);
    }
  }

  /** The list with one id left out. */
  function WithoutId(ids: seq<Id>, id: Id): seq<Id> { if id in ids then Without(ids, IndexOf(ids, id)) else ids }

  datatype Outcome<+T> = Done(value: T) | StorageUnavailable | LimitExceeded | NotFound | OrderInvalid

  class Album {
    const limit: nat
    var rows: Table
    ghost var order: seq<Id>

    ghost predicate Valid()
      reads this
    {
      Lists(rows, order) && |order| <= limit < REWRITE_OFFSET
    }

    constructor (limit: nat)
      requires limit < REWRITE_OFFSET
      ensures Valid() && order == [] && this.limit == limit
    {
      this.limit, rows, order := limit, map[], [];
    }

    /** The target's rows by ascending position. */
    method FindTargetAttachments() returns (ids: seq<Id>)
      requires UniqueKey(rows)
      ensures InOrder(rows, ids)
    {
      ids := [];
      var rest := rows.Keys;
      while rest != {}
        invariant rest <= rows.Keys && Members(ids) == rows.Keys - rest && Ascending(rows, ids)
        invariant forall a, b :: a in Members(ids) && b in rest ==> rows[a] < rows[b]
        decreases rest
      {
        ghost var low := LowestExists(rows, rest);
        var next :| next in rest && forall b :: b in rest ==> rows[next] <= rows[b];
        assert forall i :: 0 <= i < |ids| ==> ids[i] in Members(ids);
        assert Members(ids + [next]) == Members(ids) + {next};
        ids, rest := ids + [next], rest - {next};
      }
    }

    /** The first statement, one row at a time in any order, with the key holding after each. */
    method ShiftPositions()
      requires UniqueKey(rows) && Clear(rows)
      modifies this`rows
      ensures rows == Shifted(old(rows), old(rows.Keys))
    {
      ghost var was, done: set<Id> := rows, {};
      var left := rows.Keys;
      while left != {}
        invariant left <= was.Keys && done == was.Keys - left && rows == Shifted(was, done) && UniqueKey(rows)
        decreases left
      {
        var a :| a in left;
        ShiftOne(was, done, a);
        ShiftKeepsKey(was, done + {a});
        rows := rows[a := rows[a] + REWRITE_OFFSET];
        left, done := left - {a}, done + {a};
      }
    }

    /** The second statement, likewise: each named row goes to its place in the list. */
    method PlacePositions(cases: Table)
      requires UniqueKey(rows) && OutOfTheWay(rows) && UniqueKey(cases) && InTheWay(cases) && cases.Keys == rows.Keys
      modifies this`rows
      ensures rows == Placed(old(rows), cases, old(rows.Keys))
    {
      ghost var was, done: set<Id> := rows, {};
      var left := rows.Keys;
      while left != {}
        invariant left <= was.Keys && done == was.Keys - left && rows == Placed(was, cases, done) && UniqueKey(rows)
        decreases left
      {
        var a :| a in left;
        PlaceOne(was, cases, done, a);
        PlaceIsSafe(was, cases, done + {a});
        rows := rows[a := cases[a]];
        left, done := left - {a}, done + {a};
      }
    }

    /** Positions become `0..n-1` in the given order. */
    method RewriteAttachmentPositions(ids: seq<Id>)
      requires UniqueKey(rows) && NamesAll(rows, ids) && |ids| <= REWRITE_OFFSET
      requires InTheWay(rows)
      modifies this`rows
      ensures Lists(rows, ids) && rows.Keys == old(rows.Keys)
    {
      if |ids| == 0 { return; }
      ShiftPositions();
      ShiftKeepsKey(old(rows), old(rows.Keys));
      ghost var shifted := rows;
      PlacePositions(Cases(ids));
      PlacedLists(shifted, ids);
    }

    /** An album takes the next position or refuses; a singleton replaces what is there. */
    method CompleteUpload(id: Id, safeguardFree: bool) returns (r: Outcome<set<Id>>)
      requires Valid() && id !in rows
      modifies this
      ensures Valid()
      ensures r.StorageUnavailable? <==> !safeguardFree
      ensures r.LimitExceeded? <==> safeguardFree && limit != 1 && |old(order)| == limit
      ensures r.Done? <==> safeguardFree && (limit == 1 || |old(order)| < limit)
      ensures r.Done? && limit != 1 ==> order == old(order) + [id] && r.value == {}
      ensures r.Done? && limit == 1 ==> order == [id] && r.value == old(rows.Keys)
      ensures !r.Done? ==> rows == old(rows) && order == old(order)
    {
      if !safeguardFree { return StorageUnavailable; }
      ListIsInOrder(rows, order);
      var existing := FindTargetAttachments();
      InOrderOnce(rows, existing, order);
      if limit != 1 {
        if |existing| >= limit { return LimitExceeded; }
        rows, order := rows[id := |existing|], order + [id];
        return Done({});
      }
      var detached := rows.Keys;
      rows, order := map[id := 0], [id];
      return Done(detached);
    }

    /** Takes one row out and closes the gap; the others keep their order. */
    method Detach(id: Id) returns (r: Outcome<()>)
      requires Valid()
      modifies this
      ensures Valid()
      ensures r == if id in old(rows) then Done(()) else NotFound
      ensures order == WithoutId(old(order), id)
      ensures r.NotFound? ==> rows == old(rows)
    {
      if id !in rows {
        r := NotFound;
        return;
      }
      assert order[rows[id]] == id;
      ghost var without := WithoutId(order, id);
      DetachedInOrder(rows, order, id);
      rows := Removed(rows, id);
      var remaining := FindTargetAttachments();
      InOrderOnce(rows, remaining, without);
      RewriteAttachmentPositions(remaining);
      order := without;
      r := Done(());
    }

    /** The new order must be a permutation of the current rows. */
    method Reorder(ids: seq<Id>) returns (r: Outcome<seq<Id>>)
      requires Valid()
      modifies this
      ensures Valid()
      ensures r == if NamesAll(old(rows), ids) then Done(ids) else OrderInvalid
      ensures order == if NamesAll(old(rows), ids) then ids else old(order)
      ensures r.OrderInvalid? ==> rows == old(rows)
    {
      ListIsInOrder(rows, order);
      var current := FindTargetAttachments();
      InOrderOnce(rows, current, order);
      var requested := Members(ids);
      OrderCheck(rows, order, ids);
      if |requested| != |ids| || |requested| != |current| || exists a :: a in current && a !in requested {
        return OrderInvalid;
      }
      RewriteAttachmentPositions(ids);
      order := ids;
      ListIsInOrder(rows, order);
      var after := FindTargetAttachments();
      InOrderOnce(rows, after, order);
      r := Done(after);
    }
  }

  lemma PlacedLists(t: Table, ids: seq<Id>)
    requires NamesAll(t, ids)
    ensures Lists(Placed(t, Cases(ids), t.Keys), ids)
  {
    assert forall i :: 0 <= i < |ids| ==> ids[i] in Members(ids);
    assert forall a :: a in t ==> a in Members(ids);
  }

  lemma ListIsInOrder(t: Table, ids: seq<Id>)
    requires Lists(t, ids)
    ensures InOrder(t, ids) && NamesAll(t, ids) && UniqueKey(t)
  {
    assert forall a :: a in t ==> ids[t[a]] == a;
  }

  lemma WithoutKeeps(t: Table, order: seq<Id>, id: Id)
    requires Lists(t, order) && id in t
    ensures WithoutId(order, id) == Without(order, t[id])
    ensures Members(Without(order, t[id])) == t.Keys - {id}
  {
    var at := t[id];
    assert order[at] == id && IndexOf(order, id) == at;
    var without := Without(order, at);
    forall a | a in t.Keys - {id} ensures a in Members(without) {
      var k := if t[a] < at then t[a] else t[a] - 1;
      assert without[k] == a;
    }
    assert forall k :: 0 <= k < |without| ==> without[k] in t && without[k] != id;
  }

  lemma DetachedInOrder(t: Table, order: seq<Id>, id: Id)
    requires Lists(t, order) && id in t
    ensures var without := WithoutId(order, id);
      |without| == |order| - 1 && InOrder(Removed(t, id), without) && NamesAll(Removed(t, id), without)
    ensures UniqueKey(Removed(t, id)) && forall a :: a in Removed(t, id) ==> Removed(t, id)[a] < |order|
  {
    WithoutKeeps(t, order, id);
    var at := t[id];
    var without := Without(order, at);
    assert forall k :: 0 <= k < |without| ==> t[without[k]] == if k < at then k else k + 1;
  }

  lemma {:induction false} Cardinality(ids: seq<Id>)
    ensures |Members(ids)| <= |ids|
    ensures |Members(ids)| == |ids| <==> Distinct(ids)
  {
    if ids != [] {
      var n := |ids| - 1;
      var front := ids[..n];
      var some := Members(front);
      Cardinality(front);
      assert Members(ids) == some + {ids[n]};
      if ids[n] in front {
        var k := IndexOf(front, ids[n]);
        assert ids[k] == ids[n];
      } else {
        assert Distinct(front) ==> Distinct(ids);
      }
      assert Distinct(ids) ==> Distinct(front);
    }
  }

  lemma SameSizeSubset(a: set<Id>, b: set<Id>)
    requires a <= b && |a| == |b|
    ensures a == b
  {
    assert b == a + (b - a);
    assert |b - a| == 0;
  }

  /** The three cheap comparisons of the request are together the permutation test. */
  lemma OrderCheck(t: Table, current: seq<Id>, ids: seq<Id>)
    requires Lists(t, current)
    ensures NamesAll(t, ids) <==>
      |Members(ids)| == |ids| && |Members(ids)| == |current| && forall a :: a in current ==> a in ids
    ensures NamesAll(t, ids) ==> |ids| == |current|
  {
    Cardinality(ids);
    Cardinality(current);
    ListIsInOrder(t, current);
    if |Members(ids)| == |current| && forall a :: a in current ==> a in ids {
      assert Members(current) <= Members(ids);
      SameSizeSubset(Members(current), Members(ids));
    }
  }
}
