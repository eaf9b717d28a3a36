/** What every run of the ledger keeps, whichever replicas issue its statements and in whatever order. */
module ScheduledRunLaws {
  import opened Options
  import opened ScheduledRuns

  /** `max` and `lease` are configuration; tokens are never issued twice; the database clock never goes back. */
  datatype Ledger = Ledger(rows: Rows, issued: set<Token>, now: Time, max: nat, lease: nat)

  datatype Statement =
    | Insert(k: Key, token: Token)
    | Recover(k: Key, token: Token)
    | Abandon(k: Key)
    | Complete(writer: Token, added: Counts)
    | Fail(writer: Token, added: Counts, handBack: bool, code: Code)
    | Close(current: Time)

  datatype Timed = Timed(at: Time, statement: Statement)

  ghost predicate Enabled(s: Ledger, e: Timed) {
    && e.at >= s.now
    && match e.statement
       case Insert(k, token) => token !in s.issued
       case Recover(k, token) => token !in s.issued
       case _ => true
  }

  function Next(s: Ledger, e: Timed): Ledger {
    var t := s.(now := e.at);
    match e.statement
    case Insert(k, token) =>
      // The unique key lets one insert through.
      t.(issued := s.issued + {token}, rows := if k in s.rows then s.rows else s.rows[k := Fresh(e.at, s.lease, token)])
    case Recover(k, token) =>
      t.(issued := s.issued + {token}, rows := RecoverRows(s.rows, k, e.at, s.lease, s.max, token))
    case Abandon(k) => t.(rows := AbandonRows(s.rows, k, e.at, s.max))
    case Complete(writer, added) => t.(rows := CompleteRows(s.rows, writer, added, e.at))
    case Fail(writer, added, handBack, code) => t.(rows := FailRows(s.rows, writer, added, handBack, code, e.at))
    case Close(current) => t.(rows := CloseRows(s.rows, current, e.at))
  }

  type Run = seq<Timed>

  ghost predicate ValidRun(s: Ledger, run: Run)
    decreases |run|
  {
    run == [] || (Enabled(s, run[0]) && ValidRun(Next(s, run[0]), run[1..]))
  }

  function After(s: Ledger, run: Run): Ledger
    decreases |run|
  {
    if run == [] then s else After(Next(s, run[0]), run[1..])
  }

  function Start(now: Time, max: nat, lease: nat): Ledger { Ledger(map[], {}, now, max, lease) }

  // ---- the invariant ----

  ghost predicate RowInv(row: RunRow, s: Ledger) {
    && 1 <= row.attempts <= s.max
    && row.startedAt <= s.now
    && (row.progressedAt.Some? ==> row.progressedAt.value <= s.now)
    && (row.status.Claimed? ==> row.holder.Some? && row.holder.value in s.issued)
    // A live attempt carries no code, and can have been stamped before it began only.
    && (row.status.Claimed? && row.lastError.None? && row.progressedAt.Some? ==>
          row.progressedAt.value <= row.startedAt)
    // A handed-back window has expired its own lease.
    && (row.status.Claimed? && row.lastError.Some? ==> row.leaseEnd <= s.now)
  }

  ghost predicate Inv(s: Ledger) {
    && s.max >= 1
    && (forall k :: k in s.rows ==> RowInv(s.rows[k], s))
    && (forall j, k :: j in s.rows && k in s.rows && j != k ==>
          s.rows[j].status.Claimed? && s.rows[k].status.Claimed? ==> s.rows[j].holder != s.rows[k].holder)
  }

  lemma RowStep(s: Ledger, e: Timed, k: Key)
    requires Inv(s) && Enabled(s, e) && k in Next(s, e).rows
    ensures RowInv(Next(s, e).rows[k], Next(s, e))
  {
    if k in s.rows { assert RowInv(s.rows[k], s); }
    if e.statement.Insert? || e.statement.Recover? || e.statement.Abandon? {
      ClaimingRowStep(s, e, k);
    } else {
      ClosingRowStep(s, e, k);
    }
  }

  lemma ClaimingRowStep(s: Ledger, e: Timed, k: Key)
    requires Enabled(s, e) && s.max >= 1 && (k in s.rows ==> RowInv(s.rows[k], s)) && k in Next(s, e).rows
    requires e.statement.Insert? || e.statement.Recover? || e.statement.Abandon?
    ensures RowInv(Next(s, e).rows[k], Next(s, e))
  {
  }

  lemma ClosingRowStep(s: Ledger, e: Timed, k: Key)
    requires Enabled(s, e) && (k in s.rows ==> RowInv(s.rows[k], s)) && k in Next(s, e).rows
    requires e.statement.Complete? || e.statement.Fail? || e.statement.Close?
    ensures RowInv(Next(s, e).rows[k], Next(s, e))
  {
  }

  /** A claimed row keeps its holder, or was just claimed under a token nobody has used. */
  lemma HolderStep(s: Ledger, e: Timed, k: Key)
    requires Inv(s) && Enabled(s, e) && k in Next(s, e).rows && Next(s, e).rows[k].status.Claimed?
    ensures
      var holder := Next(s, e).rows[k].holder;
      || (k in s.rows && s.rows[k].status.Claimed? && holder == s.rows[k].holder)
      || ((e.statement.Insert? || e.statement.Recover?) && e.statement.k == k && holder == Some(e.statement.token))
  {
  }

  lemma HoldersStep(s: Ledger, e: Timed, j: Key, k: Key)
    requires Inv(s) && Enabled(s, e) && j in Next(s, e).rows && k in Next(s, e).rows && j != k
    requires Next(s, e).rows[j].status.Claimed? && Next(s, e).rows[k].status.Claimed?
    ensures Next(s, e).rows[j].holder != Next(s, e).rows[k].holder
  {
    HolderStep(s, e, j);
    HolderStep(s, e, k);
    if j in s.rows { assert RowInv(s.rows[j], s); }
    if k in s.rows { assert RowInv(s.rows[k], s); }
  }

  lemma StepKeeps(s: Ledger, e: Timed)
    requires Inv(s) && Enabled(s, e)
    ensures Inv(Next(s, e))
  {
    var s' := Next(s, e);
    assert s'.max == s.max;
    forall k | k in s'.rows ensures RowInv(s'.rows[k], s') { RowStep(s, e, k); }
    forall j, k | j in s'.rows && k in s'.rows && j != k && s'.rows[j].status.Claimed? && s'.rows[k].status.Claimed?
      ensures s'.rows[j].holder != s'.rows[k].holder
    {
      HoldersStep(s, e, j, k);
    }
  }

  lemma {:induction false} RunKeeps(s: Ledger, run: Run)
    requires Inv(s) && ValidRun(s, run)
    ensures Inv(After(s, run))
    decreases |run|
  {
    if run != [] {
      StepKeeps(s, run[0]);
      RunKeeps(Next(s, run[0]), run[1..]);
    }
  }

  /** In every run, attempts stay within the budget. */
  lemma AttemptsWithinBudget(now: Time, max: nat, lease: nat, run: Run, k: Key)
    requires max >= 1 && ValidRun(Start(now, max, lease), run) && k in After(Start(now, max, lease), run).rows
    ensures 1 <= After(Start(now, max, lease), run).rows[k].attempts <= max
  {
    RunKeeps(Start(now, max, lease), run);
    MaxIsFixed(Start(now, max, lease), run);
  }

  lemma {:induction false} MaxIsFixed(s: Ledger, run: Run)
    ensures After(s, run).max == s.max
    decreases |run|
  {
    if run != [] { MaxIsFixed(Next(s, run[0]), run[1..]); }
  }

  /** SUCCEEDED and FAILED rows never change again. */
  lemma {:induction false} TerminalForever(s: Ledger, run: Run, k: Key)
    requires k in s.rows && !s.rows[k].status.Claimed?
    ensures k in After(s, run).rows && After(s, run).rows[k] == s.rows[k]
    decreases |run|
  {
    if run != [] { TerminalForever(Next(s, run[0]), run[1..], k); }
  }

  // ---- fencing ----

  ghost predicate CanWrite(s: Ledger, token: Token, now: Time) {
    exists k :: k in s.rows && Live(s.rows[k], token, now)
  }

  /** A token that cannot write changes no row. */
  lemma FencedWritesNothing(s: Ledger, token: Token, at: Time, added: Counts, handBack: bool, code: Code)
    requires !CanWrite(s, token, at)
    ensures CompleteRows(s.rows, token, added, at) == s.rows
    ensures FailRows(s.rows, token, added, handBack, code, at) == s.rows
  {
  }

  lemma LiveWasLive(s: Ledger, e: Timed, token: Token, k: Key)
    requires Enabled(s, e) && token in s.issued && k in Next(s, e).rows
    ensures Live(Next(s, e).rows[k], token, e.at) ==> k in s.rows && Live(s.rows[k], token, s.now)
  {
  }

  /** A claim lost to expiry, hand-back or recovery stays lost: no later state lets its token write. */
  lemma {:induction false} LostClaimStaysLost(s: Ledger, run: Run, token: Token)
    requires ValidRun(s, run) && token in s.issued && !CanWrite(s, token, s.now)
    ensures forall at :: at >= After(s, run).now ==> !CanWrite(After(s, run), token, at)
    decreases |run|
  {
    if run != [] {
      var s' := Next(s, run[0]);
      forall k | k in s'.rows ensures !Live(s'.rows[k], token, s'.now) {
        LiveWasLive(s, run[0], token, k);
      }
      LostClaimStaysLost(s', run[1..], token);
    } else {
      forall at, k | at >= s.now && k in s.rows ensures !Live(s.rows[k], token, at) {
        assert !Live(s.rows[k], token, s.now);
      }
    }
  }

  /** A token writes one window at most, and a window has one writer at most. */
  lemma OneWriter(s: Ledger, at: Time, j: Key, k: Key, t: Token, u: Token)
    requires Inv(s) && j in s.rows && k in s.rows && Live(s.rows[j], t, at) && Live(s.rows[k], u, at)
    ensures j == k <==> t == u
  {
  }

  // ---- the attempt budget ----

  predicate ClaimsWindow(s: Ledger, e: Timed, k: Key) {
    match e.statement
    case Insert(j, _) => j == k && k !in s.rows
    case Recover(j, _) => j == k && k in s.rows && Expired(s.rows[k], e.at) && s.rows[k].attempts < s.max
    case _ => false
  }

  /** An accepted hand-back that carried a continuation code and removed at least one row. */
  predicate ProgressingHandBack(s: Ledger, e: Timed, k: Key) {
    match e.statement
    case Fail(writer, added, handBack, code) =>
      handBack && code.Continues() && Removed(added) && k in s.rows && Live(s.rows[k], writer, e.at)
    case _ => false
  }

  /** A recovery in the very instant the window last progressed. */
  predicate TiedRecovery(s: Ledger, e: Timed, k: Key) {
    ClaimsWindow(s, e, k) && k in s.rows && s.rows[k].progressedAt == Some(e.at)
  }

  function Bit(b: bool): nat { if b then 1 else 0 }

  function Claims(s: Ledger, run: Run, k: Key): nat
    decreases |run|
  {
    if run == [] then 0 else Bit(ClaimsWindow(s, run[0], k)) + Claims(Next(s, run[0]), run[1..], k)
  }

  function HandBacks(s: Ledger, run: Run, k: Key): nat
    decreases |run|
  {
    if run == [] then 0 else Bit(ProgressingHandBack(s, run[0], k)) + HandBacks(Next(s, run[0]), run[1..], k)
  }

  function Ties(s: Ledger, run: Run, k: Key): nat
    decreases |run|
  {
    if run == [] then 0 else Bit(TiedRecovery(s, run[0], k)) + Ties(Next(s, run[0]), run[1..], k)
  }

  /** The next recovery may go uncharged. */
  predicate Pass(row: RunRow) {
    row.status.Claimed? && row.progressedAt.Some? && row.progressedAt.value >= row.startedAt
    && (row.lastError.Some? ==> row.lastError.value.Continues())
  }

  function Budget(s: Ledger, k: Key): int {
    if k !in s.rows then s.max else s.max - s.rows[k].attempts + Bit(Pass(s.rows[k]))
  }

  lemma BudgetStep(s: Ledger, e: Timed, k: Key)
    requires Inv(s) && Enabled(s, e)
    ensures Bit(ClaimsWindow(s, e, k)) + Budget(Next(s, e), k)
      <= Budget(s, k) + Bit(ProgressingHandBack(s, e, k)) + Bit(TiedRecovery(s, e, k))
  {
    if k in s.rows { assert RowInv(s.rows[k], s); }
  }

  lemma {:induction false} ClaimsWithinBudget(s: Ledger, run: Run, k: Key)
    requires Inv(s) && ValidRun(s, run)
    ensures Claims(s, run, k) <= Budget(s, k) + HandBacks(s, run, k) + Ties(s, run, k)
    decreases |run|
  {
    if run == [] {
      if k in s.rows { assert RowInv(s.rows[k], s); }
    } else {
      BudgetStep(s, run[0], k);
      StepKeeps(s, run[0]);
      ClaimsWithinBudget(Next(s, run[0]), run[1..], k);
    }
  }

  /**
   * A window is claimed at most `max` times, plus once for each hand-back that was a real continuation,
   * plus once for each recovery in the same instant as the progress it follows.
   */
  lemma ClaimBound(now: Time, max: nat, lease: nat, run: Run, k: Key)
    requires max >= 1 && ValidRun(Start(now, max, lease), run)
    ensures
      var s := Start(now, max, lease);
      Claims(s, run, k) <= max + HandBacks(s, run, k) + Ties(s, run, k)
  {
    ClaimsWithinBudget(Start(now, max, lease), run, k);
  }

  // ---- the bound is reached ----

  /** A live attempt that has made no progress of its own, under the youngest token. */
  predicate Going(s: Ledger, k: Key, attempts: nat, holder: Token) {
    && k in s.rows && s.lease >= 2 && (forall t :: t in s.issued ==> t <= holder)
    && var row := s.rows[k];
    && row.status.Claimed? && row.holder == Some(holder) && row.leaseEnd > s.now && row.attempts == attempts
    && row.startedAt <= s.now && (row.progressedAt.Some? ==> row.progressedAt.value < row.startedAt)
  }

  /** The run, and how often it claims `k`, hands it back with progress, and recovers it in the instant of progress. */
  ghost predicate Tally(s: Ledger, run: Run, k: Key, claims: nat, handBacks: nat, ties: nat) {
    ValidRun(s, run) && Claims(s, run, k) == claims && HandBacks(s, run, k) == handBacks && Ties(s, run, k) == ties
  }

  /** The same, for a run that ends in `s'`. */
  ghost predicate Stretch(s: Ledger, run: Run, s': Ledger, k: Key, claims: nat, handBacks: nat, ties: nat) {
    Tally(s, run, k, claims, handBacks, ties) && After(s, run) == s'
  }

  lemma {:induction false} Append(s: Ledger, a: Run, b: Run, k: Key)
    requires ValidRun(s, a) && ValidRun(After(s, a), b)
    ensures ValidRun(s, a + b) && After(s, a + b) == After(After(s, a), b)
    ensures Claims(s, a + b, k) == Claims(s, a, k) + Claims(After(s, a), b, k)
    ensures HandBacks(s, a + b, k) == HandBacks(s, a, k) + HandBacks(After(s, a), b, k)
    ensures Ties(s, a + b, k) == Ties(s, a, k) + Ties(After(s, a), b, k)
    decreases |a|
  {
    if a == [] {
      assert a + b == b;
    } else {
      Append(Next(s, a[0]), a[1..], b, k);
      assert (a + b)[1..] == a[1..] + b;
    }
  }

  lemma TwoSteps(s: Ledger, e1: Timed, e2: Timed, k: Key) returns (run: Run)
    requires Enabled(s, e1) && Enabled(Next(s, e1), e2)
    ensures
      var s1 := Next(s, e1);
      Stretch(s, run, Next(s1, e2), k, Bit(ClaimsWindow(s, e1, k)) + Bit(ClaimsWindow(s1, e2, k)),
              Bit(ProgressingHandBack(s, e1, k)) + Bit(ProgressingHandBack(s1, e2, k)),
              Bit(TiedRecovery(s, e1, k)) + Bit(TiedRecovery(s1, e2, k)))
  {
    Prepend(Next(s, e1), e2, [], k);
    Prepend(s, e1, [e2] + [], k);
    run := [e1] + ([e2] + []);
  }

  const SOME_ROWS: Counts := map[OutboxEvents := 1]

  lemma SomeRowsRemoved()
    ensures Removed(SOME_ROWS) && !Removed(map[])
  {
    assert OutboxEvents in SOME_ROWS && SOME_ROWS[OutboxEvents] > 0;
  }

  /** The row a hand-back leaves, and the ledger around it. */
  lemma HandBackLeaves(s: Ledger, k: Key, a: nat, h: Token, added: Counts)
    requires Going(s, k, a, h)
    ensures
      var e := Timed(s.now, Fail(h, added, true, Shutdown));
      var s' := Next(s, e);
      && Enabled(s, e) && k in s'.rows && s'.rows[k].counts == Accumulated(s.rows[k].counts, added)
      && s'.rows[k] == RunRow(Claimed, Some(h), s.now, a, s.rows[k].startedAt, ProgressedAt(s.rows[k], added, s.now),
                              Some(Shutdown), s'.rows[k].counts)
      && s'.now == s.now && s'.max == s.max && s'.lease == s.lease && s'.issued == s.issued
      && !ClaimsWindow(s, e, k) && (ProgressingHandBack(s, e, k) <==> Removed(added)) && !TiedRecovery(s, e, k)
  {
  }

  /** What a recovery of a handed-back window leaves. */
  lemma RecoveryTakes(s: Ledger, k: Key, at: Time, token: Token)
    requires k in s.rows && s.rows[k].attempts < s.max && s.rows[k].status.Claimed? && s.rows[k].leaseEnd <= at
    requires at >= s.now && token !in s.issued
    ensures
      var e := Timed(at, Recover(k, token));
      var s' := Next(s, e);
      && Enabled(s, e) && k in s'.rows && s'.rows[k] == Recovered(s.rows[k], at, s.lease, token)
      && s'.now == at && s'.max == s.max && s'.lease == s.lease && s'.issued == s.issued + {token}
      && ClaimsWindow(s, e, k) && !ProgressingHandBack(s, e, k)
      && (TiedRecovery(s, e, k) <==> s.rows[k].progressedAt == Some(at))
  {
  }

  /** One more charged attempt. */
  lemma ChargedRound(s: Ledger, k: Key, a: nat, h: Token) returns (run: Run, s': Ledger)
    requires Going(s, k, a, h) && a < s.max
    ensures Going(s', k, a + 1, h + 1) && s'.max == s.max
    ensures Stretch(s, run, s', k, 1, 0, 0)
  {
    SomeRowsRemoved();
    var e1, e2 := Timed(s.now, Fail(h, map[], true, Shutdown)), Timed(s.now, Recover(k, h + 1));
    HandBackLeaves(s, k, a, h, map[]);
    var s1 := Next(s, e1);
    RecoveryTakes(s1, k, s.now, h + 1);
    s' := Next(s1, e2);
    run := TwoSteps(s, e1, e2, k);
  }

  /** A hand-back that removed rows, continued a moment later for free. */
  lemma ContinuedRound(s: Ledger, k: Key, a: nat, h: Token) returns (run: Run, s': Ledger)
    requires Going(s, k, a, h) && a < s.max
    ensures Going(s', k, a, h + 1) && s'.max == s.max
    ensures Stretch(s, run, s', k, 1, 1, 0)
  {
    SomeRowsRemoved();
    var e1, e2 := Timed(s.now, Fail(h, SOME_ROWS, true, Shutdown)), Timed(s.now + 1, Recover(k, h + 1));
    HandBackLeaves(s, k, a, h, SOME_ROWS);
    var s1 := Next(s, e1);
    RecoveryTakes(s1, k, s.now + 1, h + 1);
    s' := Next(s1, e2);
    run := TwoSteps(s, e1, e2, k);
  }

  /** A live attempt that a tie has left looking as if it had made progress. */
  predicate Tied(s: Ledger, k: Key, attempts: nat, holder: Token) {
    && k in s.rows && s.lease >= 2 && (forall t :: t in s.issued ==> t <= holder)
    && var row := s.rows[k];
    row == RunRow(Claimed, Some(holder), s.now + s.lease, attempts, s.now, Some(s.now), None, row.counts)
  }

  /** A hand-back that removed rows, continued in the same instant. */
  lemma TiedRound(s: Ledger, k: Key, a: nat, h: Token) returns (run: Run, s': Ledger)
    requires Going(s, k, a, h) && a < s.max
    ensures Tied(s', k, a, h + 1) && s'.max == s.max
    ensures Stretch(s, run, s', k, 1, 1, 1)
  {
    SomeRowsRemoved();
    var e1, e2 := Timed(s.now, Fail(h, SOME_ROWS, true, Shutdown)), Timed(s.now, Recover(k, h + 1));
    HandBackLeaves(s, k, a, h, SOME_ROWS);
    var s1 := Next(s, e1);
    RecoveryTakes(s1, k, s.now, h + 1);
    s' := Next(s1, e2);
    run := TwoSteps(s, e1, e2, k);
  }

  /** The attempt after the tie removes nothing, and is continued for free all the same. */
  lemma FreeRound(s: Ledger, k: Key, a: nat, h: Token) returns (run: Run, s': Ledger)
    requires Tied(s, k, a, h) && a < s.max
    ensures Going(s', k, a, h + 1) && s'.max == s.max
    ensures Stretch(s, run, s', k, 1, 0, 0)
  {
    SomeRowsRemoved();
    var e1, e2 := Timed(s.now + 1, Fail(h, map[], true, Shutdown)), Timed(s.now + 1, Recover(k, h + 1));
    var s1 := Next(s, e1);
    assert s1.rows[k] == RunRow(Claimed, Some(h), s.now + 1, a, s.now, Some(s.now), Some(Shutdown), s1.rows[k].counts);
    RecoveryTakes(s1, k, s.now + 1, h + 1);
    s' := Next(s1, e2);
    run := TwoSteps(s, e1, e2, k);
  }

  /** Ties first, then plain continuations, then the rest of the budget. */
  lemma {:induction false} Spend(s: Ledger, k: Key, a: nat, h: Token, ties: nat, more: nat) returns (run: Run)
    requires Going(s, k, a, h) && a <= s.max && (ties + more > 0 ==> a < s.max)
    ensures Tally(s, run, k, s.max - a + more + 2 * ties, more + ties, ties)
    decreases ties, more, s.max - a
  {
    if ties > 0 {
      var a1, s1 := TiedRound(s, k, a, h);
      var a2, s2 := FreeRound(s1, k, a, h + 1);
      var rest := Spend(s2, k, a, h + 2, ties - 1, more);
      Append(s1, a2, rest, k);
      Append(s, a1, a2 + rest, k);
      run := a1 + (a2 + rest);
    } else if more > 0 {
      var a1, s1 := ContinuedRound(s, k, a, h);
      var rest := Spend(s1, k, a, h + 1, 0, more - 1);
      Append(s, a1, rest, k);
      run := a1 + rest;
    } else if a < s.max {
      var a1, s1 := ChargedRound(s, k, a, h);
      var rest := Spend(s1, k, a + 1, h + 1, 0, 0);
      Append(s, a1, rest, k);
      run := a1 + rest;
    } else {
      run := [];
    }
  }

  /**
   * The bound is exact. Whatever the budget, for any number of ties and of further hand-backs with progress there is a
   * run that claims the window as often as `ClaimBound` allows.
   */
  lemma BoundIsTight(now: Time, max: nat, lease: nat, k: Key, ties: nat, more: nat) returns (run: Run)
    requires max >= 2 && lease >= 2
    ensures
      var s := Start(now, max, lease);
      && ValidRun(s, run) && Ties(s, run, k) == ties && HandBacks(s, run, k) == ties + more
      && Claims(s, run, k) == max + HandBacks(s, run, k) + Ties(s, run, k)
  {
    var s, e := Start(now, max, lease), Timed(now, Insert(k, 0));
    var rest := Spend(Next(s, e), k, 1, 0, ties, more);
    Prepend(s, e, rest, k);
    run := [e] + rest;
  }

  /**
   * The tie is real. The progress test is `>=`, so a recovery in the instant of a hand-back leaves the old
   * stamp looking like the new attempt's own: an attempt that removed nothing is then continued for free,
   * and the window is claimed four times where two attempts and one continuation allow three.
   */
  lemma TieBreaksTheBound(k: Key)
    ensures exists run: Run ::
      && ValidRun(Start(0, 2, 10), run)
      && Claims(Start(0, 2, 10), run, k) == 4 && HandBacks(Start(0, 2, 10), run, k) == 1
      && Ties(Start(0, 2, 10), run, k) == 1
  {
    var run := BoundIsTight(0, 2, 10, k, 1, 0);
  }

  lemma Prepend(s: Ledger, e: Timed, rest: Run, k: Key)
    requires Enabled(s, e) && ValidRun(Next(s, e), rest)
    ensures ValidRun(s, [e] + rest) && After(s, [e] + rest) == After(Next(s, e), rest)
    ensures Claims(s, [e] + rest, k) == Bit(ClaimsWindow(s, e, k)) + Claims(Next(s, e), rest, k)
    ensures HandBacks(s, [e] + rest, k) == Bit(ProgressingHandBack(s, e, k)) + HandBacks(Next(s, e), rest, k)
    ensures Ties(s, [e] + rest, k) == Bit(TiedRecovery(s, e, k)) + Ties(Next(s, e), rest, k)
  {
    assert ([e] + rest)[1..] == rest;
  }

  // ---- conservation ----

  /** What one statement reports for a table of window `k`, if the ledger accepts it. */
  function ReportedBy(s: Ledger, e: Timed, k: Key, table: Table): nat {
    match e.statement
    case Complete(writer, added) => if k in s.rows && Live(s.rows[k], writer, e.at) then Count(added, table) else 0
    case Fail(writer, added, _, _) => if k in s.rows && Live(s.rows[k], writer, e.at) then Count(added, table) else 0
    case _ => 0
  }

  function Reported(s: Ledger, run: Run, k: Key, table: Table): nat
    decreases |run|
  {
    if run == [] then 0 else ReportedBy(s, run[0], k, table) + Reported(Next(s, run[0]), run[1..], k, table)
  }

  function Stored(s: Ledger, k: Key, table: Table): nat { if k in s.rows then Count(s.rows[k].counts, table) else 0 }

  lemma CountsStep(s: Ledger, e: Timed, k: Key, table: Table)
    ensures Stored(Next(s, e), k, table) == Stored(s, k, table) + ReportedBy(s, e, k, table)
  {
  }

  /** The ledger's counts are the sum of every accepted report, and of nothing else. */
  lemma {:induction false} CountsAreConserved(s: Ledger, run: Run, k: Key, table: Table)
    ensures Stored(After(s, run), k, table) == Stored(s, k, table) + Reported(s, run, k, table)
    decreases |run|
  {
    if run != [] {
      CountsStep(s, run[0], k, table);
      CountsAreConserved(Next(s, run[0]), run[1..], k, table);
    }
  }
}
