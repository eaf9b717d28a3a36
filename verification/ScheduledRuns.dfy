/**
 * The scheduled-run ledger: one row per task and window, won by insert, recovered by lease, and
 * written only under the claim token that still holds it.
 */
module ScheduledRuns {
  import opened Options

  datatype Code =
    | BudgetSpent | StorageIncomplete | Shutdown
    | StatementTimeout | TaskFailed | RunAbandoned | Stopped | ClaimLost
  {
    /** The run was cut short on purpose or by a refusal, and may be taken up again where it stopped. */
    predicate Continues() { BudgetSpent? || StorageIncomplete? || Shutdown? }
  }

  datatype RunStatus = Claimed | Succeeded | Failed

  type Token = nat
  type Time = int

  /** The keys of `deleted_counts`. */
  datatype Table =
    | AuthSessionRows | IdempotencyKeyRows | StorageCleanupTasks | EmailSendAttempts | EmailDeliveries
    | OutboxEvents | ExportJobs | ExportObjects

  type Counts = map<Table, nat>

  /** The retention tasks. */
  datatype Task =
    | AuthSessions | IdempotencyKeys | StorageTasks | NotificationEvents | ExportResults | BookingLifecycleEvents
  {
    /** One table, one statement. */
    predicate Purges() { AuthSessions? || IdempotencyKeys? || BookingLifecycleEvents? }
  }

  datatype Key = Key(task: Task, window: Time)

  datatype RunRow = RunRow(
    status: RunStatus, holder: Option<Token>, leaseEnd: Time, attempts: nat, startedAt: Time,
    progressedAt: Option<Time>, lastError: Option<Code>, counts: Counts)

  type Rows = map<Key, RunRow>

  // ---- the expressions the statements are built from ----

  function Count(c: Counts, table: Table): nat { if table in c then c[table] else 0 }

  /** The pointwise sum: later attempts add to what earlier ones reported. */
  function Accumulated(stored: Counts, added: Counts): (r: Counts)
    ensures forall t :: Count(r, t) == Count(stored, t) + Count(added, t)
  {
    map t | t in stored.Keys + added.Keys :: Count(stored, t) + Count(added, t)
  }

  predicate Removed(added: Counts) { exists t :: t in added && added[t] > 0 }

  /** A report without deletions is no progress. */
  function ProgressedAt(row: RunRow, added: Counts, now: Time): Option<Time> {
    if Removed(added) then Some(now) else row.progressedAt
  }

  // ---- the statements ----

  function Fresh(now: Time, lease: nat, token: Token): RunRow {
    RunRow(Claimed, Some(token), now + lease, 1, now, None, None, map[])
  }

  predicate Expired(row: RunRow, now: Time) { row.status.Claimed? && row.leaseEnd <= now }

  /** The last attempt stopped on purpose and removed something, so continuing it is not charged. */
  predicate Uncharged(row: RunRow) {
    && row.lastError.Some? && row.lastError.value.Continues()
    && row.progressedAt.Some? && row.progressedAt.value >= row.startedAt
  }

  /** The assignments run left to right: the charge is decided before the code and the start are reset. */
  function Recovered(row: RunRow, now: Time, lease: nat, token: Token): RunRow {
    var r1 := row.(holder := Some(token));
    var r2 := r1.(leaseEnd := now + lease);
    var r3 := r2.(attempts := r2.attempts + if Uncharged(r2) then 0 else 1);
    var r4 := r3.(lastError := None);
    r4.(startedAt := now)
  }

  function Closed(row: RunRow, code: Code): RunRow {
    row.(status := Failed, holder := None, lastError := Some(code))
  }

  /** `locked_by = token AND status = CLAIMED AND lock_expires_at > NOW` */
  predicate Live(row: RunRow, token: Token, now: Time) {
    row.status.Claimed? && row.holder == Some(token) && row.leaseEnd > now
  }

  function Completed(row: RunRow, added: Counts, now: Time): RunRow {
    row.(status := Succeeded, holder := None, counts := Accumulated(row.counts, added),
         progressedAt := ProgressedAt(row, added, now))
  }

  function HandedBack(row: RunRow, added: Counts, code: Code, now: Time): RunRow {
    row.(leaseEnd := now, counts := Accumulated(row.counts, added), progressedAt := ProgressedAt(row, added, now),
         lastError := Some(code))
  }

  function GivenUp(row: RunRow, added: Counts, code: Code, now: Time): RunRow {
    row.(status := Failed, holder := None, counts := Accumulated(row.counts, added),
         progressedAt := ProgressedAt(row, added, now), lastError := Some(code))
  }

  function FinishedBy(row: RunRow, added: Counts, handBack: bool, code: Code, now: Time): RunRow {
    if handBack then HandedBack(row, added, code, now) else GivenUp(row, added, code, now)
  }

  function RecoverRows(rows: Rows, k: Key, now: Time, lease: nat, max: nat, token: Token): Rows {
    if k in rows && Expired(rows[k], now) && rows[k].attempts < max then
      rows[k := Recovered(rows[k], now, lease, token)]
    else rows
  }

  function AbandonRows(rows: Rows, k: Key, now: Time, max: nat): Rows {
    if k in rows && Expired(rows[k], now) && rows[k].attempts >= max then rows[k := Closed(rows[k], RunAbandoned)]
    else rows
  }

  function CompleteRows(rows: Rows, token: Token, added: Counts, now: Time): Rows {
    map k | k in rows :: if Live(rows[k], token, now) then Completed(rows[k], added, now) else rows[k]
  }

  function FailRows(rows: Rows, token: Token, added: Counts, handBack: bool, code: Code, now: Time): Rows {
    map k | k in rows :: if Live(rows[k], token, now) then FinishedBy(rows[k], added, handBack, code, now) else rows[k]
  }

  function CloseRows(rows: Rows, current: Time, now: Time): Rows {
    map k | k in rows :: if k.window < current && Expired(rows[k], now) then Closed(rows[k], Stopped) else rows[k]
  }

  // ---- the repository ----

  datatype Refusal = Taken | Exhausted
  datatype ClaimResult = Won(attempt: nat) | Refused(reason: Refusal)

  class ScheduledRunRepository {
    var rows: Rows

    constructor ()
      ensures rows == map[]
    {
      rows := map[];
    }

    /** One replica's bid for a window. `contended` is a losing insert that timed out on the winner's lock. */
    method Claim(k: Key, now: Time, lease: nat, max: nat, token: Token, contended: bool) returns (r: ClaimResult)
      modifies this
      ensures rows ==
        if contended then old(rows)
        else if k !in old(rows) then old(rows)[k := Fresh(now, lease, token)]
        else if r.Won? then RecoverRows(old(rows), k, now, lease, max, token)
        else AbandonRows(old(rows), k, now, max)
      ensures r.Won? <==> !contended && (k !in old(rows) || (Expired(old(rows)[k], now) && old(rows)[k].attempts < max))
      ensures r.Won? ==> k in rows && rows[k].holder == Some(token) && rows[k].attempts == r.attempt
      ensures r.Refused? ==> (r.reason.Exhausted? <==> !contended && rows[k].status.Failed?)
    {
      if contended { return Refused(Taken); }
      if k !in rows {
        rows := rows[k := Fresh(now, lease, token)];
        return Won(1);
      }
      if Expired(rows[k], now) && rows[k].attempts < max {
        rows := rows[k := Recovered(rows[k], now, lease, token)];
        return Won(rows[k].attempts);
      }
      if Expired(rows[k], now) && rows[k].attempts >= max {
        rows := rows[k := Closed(rows[k], RunAbandoned)];
        return Refused(Exhausted);
      }
      return Refused(if rows[k].status.Failed? then Exhausted else Taken);
    }

    /**
     * Success is final: the token's live claim becomes it, with its counts added, and the token has written its last.
     */
    method Complete(token: Token, added: Counts, now: Time) returns (applied: bool)
      modifies this
      ensures rows == CompleteRows(old(rows), token, added, now)
      ensures Unheld(rows, token, now) && OthersUntouched(old(rows), rows, token, now)
      ensures forall k :: k in rows && Live(old(rows)[k], token, now) ==>
        rows[k].status.Succeeded? && rows[k].holder == None && CountsGrew(old(rows)[k], rows[k], added)
      ensures applied <==> rows != old(rows)
    {
      applied := exists k :: k in rows && Live(rows[k], token, now);
      rows := CompleteRows(rows, token, added, now);
    }

    /**
     * While budget is left a retryable failure frees the window for anybody at once; otherwise the window is closed.
     */
    method Fail(token: Token, attempt: nat, retryable: bool, code: Code, added: Counts, max: nat, now: Time)
      returns (applied: bool)
      modifies this
      ensures rows == FailRows(old(rows), token, added, retryable && attempt < max, code, now)
      ensures Unheld(rows, token, now) && OthersUntouched(old(rows), rows, token, now)
      ensures forall k :: k in rows && Live(old(rows)[k], token, now) ==>
        Failing(old(rows)[k], rows[k], added, retryable && attempt < max, code, now)
      ensures applied <==> rows != old(rows)
    {
      var handBack := retryable && attempt < max;
      FailMeans(rows, token, added, handBack, code, now);
      applied := exists k :: k in rows && Live(rows[k], token, now);
      rows := FailRows(rows, token, added, handBack, code, now);
    }

    /** Afterwards no earlier window is waiting for a recovery that will not come, and nothing else has changed. */
    method CloseAbandonedBefore(current: Time, now: Time) returns (closed: nat)
      modifies this
      ensures rows == CloseRows(old(rows), current, now) && rows.Keys == old(rows).Keys
      ensures forall k :: k in rows && k.window < current ==> !Expired(rows[k], now)
      ensures forall k :: k in rows && rows[k] != old(rows)[k] ==>
        k.window < current && rows[k].status.Failed? && rows[k].lastError == Some(Stopped)
      ensures forall k :: k in rows ==>
        rows[k].counts == old(rows)[k].counts && rows[k].attempts == old(rows)[k].attempts
      ensures closed == |set k | k in rows && rows[k] != old(rows)[k]|
    {
      closed := |set k | k in rows && k.window < current && Expired(rows[k], now)|;
      ghost var before := rows;
      rows := CloseRows(rows, current, now);
      ghost var changed := set k | k in rows && rows[k] != before[k];
      assert changed == set k | k in before && k.window < current && Expired(before[k], now);
    }
  }

  /** Open to recovery at once, or closed; with its code, and its counts added. */
  ghost predicate Failing(row: RunRow, row': RunRow, added: Counts, handBack: bool, code: Code, now: Time) {
    && (if handBack then Expired(row', now) else row'.status.Failed?)
    && row'.lastError == Some(code) && CountsGrew(row, row', added)
  }

  lemma FailRowMeans(row: RunRow, token: Token, added: Counts, handBack: bool, code: Code, now: Time)
    requires Live(row, token, now)
    ensures var row' := FinishedBy(row, added, handBack, code, now);
      Failing(row, row', added, handBack, code, now) && row' != row && forall at :: at >= now ==> !Live(row', token, at)
  {
  }

  lemma FailMeans(rows: Rows, token: Token, added: Counts, handBack: bool, code: Code, now: Time)
    ensures
      var rows' := FailRows(rows, token, added, handBack, code, now);
      && Unheld(rows', token, now) && OthersUntouched(rows, rows', token, now)
      && (forall k :: k in rows && Live(rows[k], token, now) ==> Failing(rows[k], rows'[k], added, handBack, code, now))
      && ((exists k :: k in rows && Live(rows[k], token, now)) <==> rows' != rows)
  {
    var rows' := FailRows(rows, token, added, handBack, code, now);
    forall k | k in rows && Live(rows[k], token, now)
      ensures Failing(rows[k], rows'[k], added, handBack, code, now) && rows'[k] != rows[k]
      ensures forall at :: at >= now ==> !Live(rows'[k], token, at)
    {
      FailRowMeans(rows[k], token, added, handBack, code, now);
    }
    if rows' != rows { var k :| k in rows && rows'[k] != rows[k]; }
  }

  /** The token can write nothing from now on, unless it is issued again. */
  ghost predicate Unheld(rows: Rows, token: Token, now: Time) {
    forall k, at :: k in rows && at >= now ==> !Live(rows[k], token, at)
  }

  ghost predicate OthersUntouched(rows: Rows, rows': Rows, token: Token, now: Time) {
    rows'.Keys == rows.Keys && forall k :: k in rows && !Live(rows[k], token, now) ==> rows'[k] == rows[k]
  }

  ghost predicate CountsGrew(row: RunRow, row': RunRow, added: Counts) {
    row'.attempts == row.attempts && forall t :: Count(row'.counts, t) == Count(row.counts, t) + Count(added, t)
  }
}
