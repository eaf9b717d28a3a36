/** One window of one retention task: its bounded batches, and what the run writes down about them. */
module RetentionRun {
  import opened Options
  import opened ScheduledRuns

  type Id = nat

  /**
   * What one batch meets. `due` is what the batch's own read finds, `dueAt(c)` what the c-th storage claim
   * finds, `interrupted(c)` whether shutdown or the budget stops it before its c-th provider call, and
   * `accepts` whether the provider deletes an object.
   */
  datatype Env = Env(
    due: set<Id>, dueAt: nat -> set<Id>, hasObject: Id -> bool, accepts: Id -> bool, interrupted: nat -> bool,
    attempts: map<Id, Id>, deliveries: map<Id, Id>, throws: Option<Code>)

  /** A task's answer: the counts it reports, whether more waits, and how often a provider refused. */
  datatype Outcome = Outcome(counts: Counts, moreWaiting: bool, retryable: nat)

  const DRAIN_BATCH := 25

  function MainTable(task: Task): Table {
    match task
    case AuthSessions => AuthSessionRows
    case IdempotencyKeys => IdempotencyKeyRows
    case StorageTasks => StorageCleanupTasks
    case NotificationEvents => OutboxEvents
    case ExportResults => ExportJobs
    case BookingLifecycleEvents => OutboxEvents
  }

  // ---- what a batch really did: a function of what it met and the items it tried ----

  function Elements(s: seq<Id>): set<Id> { set x | x in s }

  predicate Distinct(s: seq<Id>) { forall i, j :: 0 <= i < j < |s| ==> s[i] != s[j] }

  /** The provider keeps the item, so its rows stay. */
  predicate Refuses(task: Task, env: Env, x: Id) {
    match task
    case StorageTasks => !env.accepts(x)
    case ExportResults => env.hasObject(x) && !env.accepts(x)
    case _ => false
  }

  ghost function Refused(task: Task, env: Env, tried: seq<Id>): (n: nat)
    ensures n <= |tried|
  {
    if tried == [] then 0
    else Refused(task, env, tried[..|tried| - 1]) + if Refuses(task, env, tried[|tried| - 1]) then 1 else 0
  }

  ghost function Removed(task: Task, env: Env, tried: seq<Id>): set<Id> {
    set x | x in tried && !Refuses(task, env, x)
  }

  function Least(a: nat, b: nat): nat { if a <= b then a else b }

  /** The batch stopped before everything it could have tried. */
  ghost predicate Cut(task: Task, env: Env, size: nat, tried: seq<Id>) {
    match task
    case StorageTasks => |tried| < DRAIN_BATCH && env.interrupted(|tried|)
    case NotificationEvents => env.interrupted(0)
    case ExportResults => |tried| < Least(size, |env.due|)
    case _ => false
  }

  /** `tried` is a batch of this task in this environment: claims one by one, or a prefix of what is due. */
  ghost predicate Batch(task: Task, env: Env, size: nat, tried: seq<Id>) {
    match task
    case StorageTasks =>
      && |tried| <= DRAIN_BATCH && (forall i :: 0 <= i < |tried| ==> tried[i] in env.dueAt(i) && !env.interrupted(i))
      && (|tried| < DRAIN_BATCH && !env.interrupted(|tried|) ==> env.dueAt(|tried|) == {})
    case NotificationEvents =>
      Distinct(tried) && Elements(tried) <= env.due
      && |tried| == if env.interrupted(0) then 0 else Least(size, |env.due|)
    case ExportResults =>
      && Distinct(tried) && Elements(tried) <= env.due && |tried| <= Least(size, |env.due|)
      && (forall i :: 0 <= i < |tried| ==> !env.interrupted(i))
      && (Cut(task, env, size, tried) ==> env.interrupted(|tried|))
    case _ => Distinct(tried) && Elements(tried) <= env.due && |tried| == Least(size, |env.due|)
  }

  /** As many items as a batch may hold, or, for exports, nothing but refusals. */
  ghost predicate Full(task: Task, env: Env, size: nat, tried: seq<Id>) {
    || |tried| == (if task.StorageTasks? then DRAIN_BATCH else size)
    || (task.ExportResults? && tried != [] && Refused(task, env, tried) == |tried|)
  }

  /** The answer reports the batch: what it removed, how often it was refused, and whether more may be waiting. */
  ghost predicate Reports(task: Task, env: Env, size: nat, tried: seq<Id>, o: Outcome) {
    && o.retryable == Refused(task, env, tried)
    && Count(o.counts, MainTable(task)) == |tried| - Refused(task, env, tried)
    && (o.moreWaiting <==> Cut(task, env, size, tried) || Full(task, env, size, tried))
  }

  ghost predicate Happened(task: Task, env: Env, size: nat, tried: seq<Id>, o: Outcome) {
    Batch(task, env, size, tried) && Reports(task, env, size, tried, o)
  }

  /** Everything the batch's last read found due is gone. */
  ghost predicate Emptied(task: Task, env: Env, tried: seq<Id>) {
    if task.StorageTasks? then |tried| < DRAIN_BATCH && env.dueAt(|tried|) == {} && !env.interrupted(|tried|)
    else Removed(task, env, tried) == env.due
  }

  lemma {:induction false} NoneRefused(task: Task, env: Env, tried: seq<Id>)
    ensures Refused(task, env, tried) == 0 <==> forall x :: x in tried ==> !Refuses(task, env, x)
  {
    if tried != [] {
      var init, last := tried[..|tried| - 1], tried[|tried| - 1];
      NoneRefused(task, env, init);
      assert tried == init + [last];
    }
  }

  lemma {:induction false} DistinctCount(s: seq<Id>)
    requires Distinct(s)
    ensures |Elements(s)| == |s|
  {
    if s != [] {
      var init, last := s[..|s| - 1], s[|s| - 1];
      DistinctCount(init);
      assert s == init + [last];
      assert Elements(s) == Elements(init) + {last};
    }
  }

  lemma AllOfThem(s: seq<Id>, due: set<Id>)
    requires Distinct(s) && Elements(s) <= due && |s| == |due|
    ensures Elements(s) == due
  {
    DistinctCount(s);
    assert due == Elements(s) + (due - Elements(s));
    assert |due - Elements(s)| == 0;
  }

  /** For all six tasks: an answer of "nothing waits" without a refusal means that nothing due was left. */
  lemma QuietMeansEmptied(task: Task, env: Env, size: nat, tried: seq<Id>, o: Outcome)
    requires size >= 1 && Happened(task, env, size, tried, o) && !o.moreWaiting && o.retryable == 0
    ensures Emptied(task, env, tried) && forall x :: x in tried ==> !Refuses(task, env, x)
  {
    NoneRefused(task, env, tried);
    if !task.StorageTasks? {
      assert Removed(task, env, tried) == Elements(tried);
      AllOfThem(tried, env.due);
    }
  }

  // ---- the batches ----

  /** A bounded read or delete: a prefix of the due rows, all of them when they fit. */
  method Bounded(due: set<Id>, limit: nat) returns (batch: seq<Id>)
    ensures |batch| == Least(limit, |due|)
    ensures Distinct(batch)
    ensures Elements(batch) <= due && (|due| <= limit ==> Elements(batch) == due)
  {
    batch := [];
    var todo := due;
    while todo != {} && |batch| < limit
      invariant todo <= due && |batch| <= limit && |batch| + |todo| == |due|
      invariant Distinct(batch)
      invariant forall i :: 0 <= i < |batch| ==> batch[i] in due && batch[i] !in todo
      invariant forall x :: x in due && x !in todo ==> x in batch
    {
      var x :| x in todo;
      batch := batch + [x];
      todo := todo - {x};
    }
  }

  /** Zero counts are left out of a report. */
  function Positive(c: Counts): (r: Counts)
    ensures forall t :: Count(r, t) == Count(c, t)
  {
    map t | t in c && c[t] > 0 :: c[t]
  }

  function Only(table: Table, n: nat): Counts { Positive(map[table := n]) }

  /** One bounded delete; a short one says nothing is left. */
  method Purge(task: Task, env: Env, size: nat) returns (o: Outcome, ghost tried: seq<Id>)
    requires size >= 1 && task.Purges()
    ensures Happened(task, env, size, tried, o)
    ensures Count(o.counts, MainTable(task)) == Least(size, |env.due|)
    ensures forall t :: t != MainTable(task) ==> Count(o.counts, t) == 0
    ensures (o.moreWaiting <==> |env.due| >= size) && o.retryable == 0
  {
    var batch := Bounded(env.due, size);
    o := Outcome(Only(MainTable(task), |batch|), |batch| == size, 0);
    tried := batch;
    NoneRefused(task, env, tried);
  }

  /** Claims and deletes one by one; a claim that finds nothing ends the drain, an interruption leaves it unfinished. */
  method DrainStorageTasks(env: Env, size: nat) returns (o: Outcome, ghost tried: seq<Id>)
    ensures Happened(StorageTasks, env, size, tried, o)
    ensures forall t :: t != StorageCleanupTasks ==> Count(o.counts, t) == 0
    ensures
      var calls := Count(o.counts, StorageCleanupTasks) + o.retryable;
      && calls <= DRAIN_BATCH && (forall i :: 0 <= i < calls ==> !env.interrupted(i) && env.dueAt(i) != {})
      && (o.moreWaiting <==> calls == DRAIN_BATCH || env.interrupted(calls))
      && (!o.moreWaiting ==> env.dueAt(calls) == {})
  {
    var deleted, claimed, retryable := 0, 0, 0;
    var truncated := false;
    var call := 0;
    tried := [];
    while call < DRAIN_BATCH
      invariant 0 <= call <= DRAIN_BATCH && !truncated
      invariant claimed == call == |tried| && retryable == Refused(StorageTasks, env, tried)
      invariant deleted == |tried| - retryable
      invariant forall i :: 0 <= i < |tried| ==> tried[i] in env.dueAt(i) && !env.interrupted(i)
    {
      if env.interrupted(call) {
        truncated := true;
        break;
      }
      if env.dueAt(call) == {} { break; }
      var task :| task in env.dueAt(call);
      claimed := claimed + 1;
      if env.accepts(task) { deleted := deleted + 1; } else { retryable := retryable + 1; }
      assert (tried + [task])[..|tried|] == tried;
      tried := tried + [task];
      call := call + 1;
    }
    o := Outcome(Only(StorageCleanupTasks, deleted), truncated || claimed == DRAIN_BATCH, retryable);
    assert Count(o.counts, StorageCleanupTasks) + o.retryable == |tried|;
  }

  function Kept(rows: map<Id, Id>, parents: set<Id>): map<Id, Id> {
    map r | r in rows && rows[r] !in parents :: rows[r]
  }

  function NotificationCounts(attempts: nat, deliveries: nat, events: nat): (c: Counts)
    ensures Count(c, EmailSendAttempts) == attempts && Count(c, EmailDeliveries) == deliveries
    ensures Count(c, OutboxEvents) == events
  {
    Positive(map[EmailSendAttempts := attempts, EmailDeliveries := deliveries, OutboxEvents := events])
  }

  lemma KeptAll(rows: map<Id, Id>)
    ensures Kept(rows, Elements([])) == rows
  {
  }

  /** Attempts, deliveries and events of the batch go in one transaction, so no child outlives its event. */
  method CollectNotificationEvents(env: Env, size: nat, attempts: map<Id, Id>, deliveries: map<Id, Id>)
    returns (o: Outcome, attempts': map<Id, Id>, deliveries': map<Id, Id>, ghost tried: seq<Id>)
    requires size >= 1
    ensures Happened(NotificationEvents, env, size, tried, o)
    ensures attempts' == Kept(attempts, Elements(tried)) && deliveries' == Kept(deliveries, Elements(tried))
    ensures Count(o.counts, EmailDeliveries) == |deliveries| - |deliveries'|
    ensures Count(o.counts, EmailSendAttempts) == |attempts| - |attempts'|
  {
    tried := [];
    if env.interrupted(0) {
      KeptAll(attempts);
      KeptAll(deliveries);
      return Outcome(map[], true, 0), attempts, deliveries, tried;
    }
    var batch := Bounded(env.due, size);
    if |batch| == 0 {
      KeptAll(attempts);
      KeptAll(deliveries);
      return Outcome(map[], false, 0), attempts, deliveries, tried;
    }
    var attemptsDeleted, deliveriesDeleted;
    attempts', attemptsDeleted := DeleteChildren(attempts, Elements(batch));
    deliveries', deliveriesDeleted := DeleteChildren(deliveries, Elements(batch));
    o := Outcome(NotificationCounts(attemptsDeleted, deliveriesDeleted, |batch|), |batch| == size, 0);
    tried := batch;
    NoneRefused(NotificationEvents, env, tried);
  }

  method DeleteChildren(rows: map<Id, Id>, parents: set<Id>) returns (kept: map<Id, Id>, deleted: nat)
    ensures kept == Kept(rows, parents) && deleted == |rows| - |kept|
  {
    kept := Kept(rows, parents);
    Subset(kept.Keys, rows.Keys);
    deleted := |rows| - |kept|;
  }

  lemma Subset(a: set<Id>, b: set<Id>)
    requires a <= b
    ensures |a| <= |b|
  {
    assert b == a + (b - a);
  }

  /** The jobs that may go: those without an object, and those whose object the provider deleted. */
  ghost function Removable(env: Env, jobs: seq<Id>): (r: seq<Id>)
    ensures |r| == |jobs| - Refused(ExportResults, env, jobs)
  {
    if jobs == [] then []
    else
      Removable(env, jobs[..|jobs| - 1])
      + if Refuses(ExportResults, env, jobs[|jobs| - 1]) then [] else [jobs[|jobs| - 1]]
  }

  ghost function ObjectsOf(env: Env, jobs: seq<Id>): (n: nat)
    ensures n <= |Removable(env, jobs)|
  {
    if jobs == [] then 0
    else
      var last := jobs[|jobs| - 1];
      ObjectsOf(env, jobs[..|jobs| - 1]) + if env.hasObject(last) && env.accepts(last) then 1 else 0
  }

  lemma {:induction false} RemovableIsRemoved(env: Env, jobs: seq<Id>)
    ensures Elements(Removable(env, jobs)) == Removed(ExportResults, env, jobs)
  {
    if jobs != [] {
      var init, last := jobs[..|jobs| - 1], jobs[|jobs| - 1];
      RemovableIsRemoved(env, init);
      assert jobs == init + [last];
      var more := if Refuses(ExportResults, env, last) then {} else {last};
      assert Removed(ExportResults, env, jobs) == Removed(ExportResults, env, init) + more;
      assert Elements(Removable(env, jobs)) == Elements(Removable(env, init)) + more;
    }
  }

  /** The provider half of an export batch, up to the job before which it was interrupted. */
  method DeleteObjects(env: Env, batch: seq<Id>)
    returns (removable: seq<Id>, objects: nat, retryable: nat, truncated: bool)
    ensures
      var reached := |removable| + retryable;
      && reached <= |batch| && removable == Removable(env, batch[..reached])
      && objects == ObjectsOf(env, batch[..reached])
      && (forall i :: 0 <= i < reached ==> !env.interrupted(i))
      && (truncated <==> reached < |batch|) && (truncated ==> env.interrupted(reached))
  {
    removable, objects, retryable, truncated := [], 0, 0, false;
    var i := 0;
    while i < |batch|
      invariant 0 <= i <= |batch| && !truncated && removable == Removable(env, batch[..i])
      invariant objects == ObjectsOf(env, batch[..i]) && retryable == i - |removable|
      invariant forall j :: 0 <= j < i ==> !env.interrupted(j)
    {
      if env.interrupted(i) {
        truncated := true;
        break;
      }
      var job := batch[i];
      assert batch[..i + 1][..i] == batch[..i];
      if !env.hasObject(job) {
        removable := removable + [job];
      } else if env.accepts(job) {
        objects := objects + 1;
        removable := removable + [job];
      } else {
        retryable := retryable + 1;
      }
      i := i + 1;
    }
  }

  /**
   * The object, then the job and its event. A refused object keeps its rows; a job without an object is removed
   * outright; an interruption leaves the rest of the batch due. `gone` are the jobs whose rows were deleted.
   */
  method CollectExportResults(env: Env, size: nat) returns (o: Outcome, gone: seq<Id>, ghost tried: seq<Id>)
    requires size >= 1
    ensures Happened(ExportResults, env, size, tried, o)
    ensures gone == Removable(env, tried) && Elements(gone) == Removed(ExportResults, env, tried)
    ensures Count(o.counts, ExportJobs) == Count(o.counts, OutboxEvents) == |gone|
    ensures Count(o.counts, ExportObjects) == ObjectsOf(env, tried)
  {
    var batch := Bounded(env.due, size);
    tried, gone := [], [];
    if |batch| == 0 {
      assert Elements(gone) == Removed(ExportResults, env, tried);
      return Outcome(map[], false, 0), gone, tried;
    }
    var removable, objects, retryable, truncated := DeleteObjects(env, batch);
    tried := batch[..|removable| + retryable];
    gone := removable;
    assert Elements(tried) <= Elements(batch);
    RemovableIsRemoved(env, tried);
    if |removable| == 0 {
      o := Outcome(map[], truncated || retryable > 0, retryable);
    } else {
      var counts := map[ExportObjects := objects, ExportJobs := |removable|, OutboxEvents := |removable|];
      o := Outcome(Positive(counts), truncated || |batch| == size, retryable);
    }
  }

  /** One bounded pass of the task. */
  method RunBatch(task: Task, env: Env, size: nat) returns (o: Outcome, ghost tried: seq<Id>)
    requires size >= 1
    ensures Happened(task, env, size, tried, o)
    ensures !o.moreWaiting && o.retryable == 0 && !task.StorageTasks? ==> Count(o.counts, MainTable(task)) == |env.due|
  {
    match task {
      case AuthSessions => o, tried := Purge(task, env, size);
      case IdempotencyKeys => o, tried := Purge(task, env, size);
      case BookingLifecycleEvents => o, tried := Purge(task, env, size);
      case StorageTasks => o, tried := DrainStorageTasks(env, size);
      case NotificationEvents =>
        var attempts, deliveries;
        o, attempts, deliveries, tried := CollectNotificationEvents(env, size, env.attempts, env.deliveries);
      case ExportResults =>
        var gone;
        o, gone, tried := CollectExportResults(env, size);
    }
    if !o.moreWaiting && o.retryable == 0 && !task.StorageTasks? {
      QuietMeansEmptied(task, env, size, tried, o);
      NoneRefused(task, env, tried);
      assert Removed(task, env, tried) == Elements(tried);
      DistinctCount(tried);
    }
  }

  // ---- the run ----

  datatype Pass = Pass(env: Env, tried: seq<Id>, outcome: Outcome) {
    ghost predicate Happens(task: Task, size: nat) { Happened(task, env, size, tried, outcome) }
  }

  /** The batches of one run so far, and the counts it has added up. */
  datatype Log = Log(passes: seq<Pass>, counts: Counts) {
    ghost predicate Valid(task: Task, size: nat) {
      && (forall i :: 0 <= i < |passes| ==> passes[i].Happens(task, size))
      && forall t :: Count(counts, t) == Total(passes, t)
    }

    ghost predicate Met(envs: nat -> Env) { forall i :: 0 <= i < |passes| ==> passes[i].env == envs(i) }

    predicate Waiting() { passes != [] && passes[|passes| - 1].outcome.moreWaiting }

    function With(pass: Pass): Log { Log(passes + [pass], Accumulated(counts, pass.outcome.counts)) }
  }

  ghost function Total(passes: seq<Pass>, table: Table): nat {
    if passes == [] then 0 else Total(passes[..|passes| - 1], table) + Count(passes[|passes| - 1].outcome.counts, table)
  }

  function Retries(passes: seq<Pass>): nat {
    if passes == [] then 0 else Retries(passes[..|passes| - 1]) + passes[|passes| - 1].outcome.retryable
  }

  lemma {:induction false} NoRetries(passes: seq<Pass>, i: nat)
    requires Retries(passes) == 0 && i < |passes|
    ensures passes[i].outcome.retryable == 0
  {
    if i < |passes| - 1 { NoRetries(passes[..|passes| - 1], i); }
  }

  lemma CountsGrow(log: Log, pass: Pass, t: Table)
    requires Count(log.counts, t) == Total(log.passes, t)
    ensures Count(log.With(pass).counts, t) == Total(log.With(pass).passes, t)
  {
    assert (log.passes + [pass])[..|log.passes|] == log.passes;
  }

  lemma LogGrows(log: Log, pass: Pass, task: Task, size: nat)
    requires log.Valid(task, size) && pass.Happens(task, size)
    ensures log.With(pass).Valid(task, size)
    ensures Retries(log.With(pass).passes) == Retries(log.passes) + pass.outcome.retryable
  {
    var longer := log.With(pass);
    assert longer.passes[..|log.passes|] == log.passes;
    forall i | 0 <= i < |longer.passes| ensures longer.passes[i].Happens(task, size) {
      if i < |log.passes| { assert longer.passes[i] == log.passes[i]; }
    }
    forall t ensures Count(longer.counts, t) == Total(longer.passes, t) {
      CountsGrow(log, pass, t);
    }
  }

  /** The state of the loop after `log`'s batches. */
  ghost predicate Looping(log: Log, task: Task, size: nat, envs: nat -> Env, counts: Counts, refusals: nat) {
    log.Valid(task, size) && log.Met(envs) && log.counts == counts && refusals == Retries(log.passes)
  }

  lemma LoopGrows(log: Log, task: Task, size: nat, envs: nat -> Env, counts: Counts, refusals: nat, tried: seq<Id>,
                  o: Outcome)
    requires Looping(log, task, size, envs, counts, refusals) && Happened(task, envs(|log.passes|), size, tried, o)
    ensures Looping(log.With(Pass(envs(|log.passes|), tried, o)), task, size, envs, Accumulated(counts, o.counts),
                    refusals + o.retryable)
  {
    var pass := Pass(envs(|log.passes|), tried, o);
    assert pass.Happens(task, size);
    LogGrows(log, pass, task, size);
  }

  /** The last batch left nothing due, and no provider refused anything in the whole run. */
  ghost predicate Drained(task: Task, log: Log) {
    && log.passes != []
    && (var last := log.passes[|log.passes| - 1]; Emptied(task, last.env, last.tried))
    && forall i, x :: 0 <= i < |log.passes| && x in log.passes[i].tried ==> !Refuses(task, log.passes[i].env, x)
  }

  datatype Ending = Completes | HandsBack(code: Code)

  /** How a run that ran out of batches, was asked to stop or spent its budget is recorded. */
  function EndingOf(log: Log, stopping: bool): Ending {
    if log.Waiting() then HandsBack(if stopping then Shutdown else BudgetSpent)
    else if Retries(log.passes) > 0 then HandsBack(StorageIncomplete)
    else Completes
  }

  /** Only a drained run completes, whichever of the six tasks it is. */
  lemma CompletesOnlyDrained(task: Task, size: nat, log: Log, stopping: bool)
    requires size >= 1 && log.Valid(task, size) && log.passes != [] && EndingOf(log, stopping).Completes?
    ensures Drained(task, log)
  {
    var last := log.passes[|log.passes| - 1];
    forall i | 0 <= i < |log.passes| ensures log.passes[i].outcome.retryable == 0 {
      NoRetries(log.passes, i);
    }
    assert last.Happens(task, size);
    QuietMeansEmptied(task, last.env, size, last.tried, last.outcome);
    forall i, x | 0 <= i < |log.passes| && x in log.passes[i].tried ensures !Refuses(task, log.passes[i].env, x) {
      assert log.passes[i].Happens(task, size);
      NoneRefused(task, log.passes[i].env, log.passes[i].tried);
    }
  }

  datatype RunResult =
    | NotClaimed(reason: Refusal)
    | CompletedRun
    | Incomplete(code: Code)
    | FailedRun(code: Code)

  function CodeOf(interrupted: bool, budgetSpent: bool): Code {
    if interrupted then Shutdown else if budgetSpent then BudgetSpent else StorageIncomplete
  }

  /** The ledger after a claim that was won. */
  ghost function ClaimedRows(rows: Rows, k: Key, now: Time, lease: nat, max: nat, token: Token): Rows {
    if k !in rows then rows[k := Fresh(now, lease, token)] else RecoverRows(rows, k, now, lease, max, token)
  }

  class RetentionRunService {
    const runs: ScheduledRunRepository

    constructor (runs: ScheduledRunRepository)
      ensures this.runs == runs
    {
      this.runs := runs;
    }

    /**
     * The batch loop. `envs(i)` is what the i-th batch meets, `stops(i)` whether shutdown is asked for after it,
     * and the budget runs out after batch `deadline`.
     */
    method Batches(task: Task, size: nat, envs: nat -> Env, stops: nat -> bool, deadline: nat)
      returns (counts: Counts, thrown: Option<Code>, interrupted: bool, budgetSpent: bool, refusals: nat,
               ghost log: Log)
      requires size >= 1
      ensures Looping(log, task, size, envs, counts, refusals)
      ensures thrown == envs(|log.passes|).throws || thrown.None?
      ensures thrown.None? ==> log.passes != []
      ensures thrown.None? ==> (interrupted <==> log.Waiting() && stops(|log.passes| - 1))
      ensures thrown.None? ==> (budgetSpent <==> log.Waiting() && !stops(|log.passes| - 1))
      ensures budgetSpent ==> |log.passes| > deadline
      ensures !(interrupted && budgetSpent) && (thrown.Some? ==> !interrupted && !budgetSpent)
    {
      counts, thrown, interrupted, budgetSpent, refusals := map[], None, false, false, 0;
      log := Log([], counts);
      var batch := 0;
      while true
        invariant batch == |log.passes| <= deadline && thrown.None? && !interrupted && !budgetSpent
        invariant Looping(log, task, size, envs, counts, refusals)
        decreases deadline - batch
      {
        if envs(batch).throws.Some? {
          thrown := envs(batch).throws;
          return;
        }
        var outcome;
        ghost var tried;
        outcome, tried := RunBatch(task, envs(batch), size);
        LoopGrows(log, task, size, envs, counts, refusals, tried, outcome);
        refusals := refusals + outcome.retryable;
        counts := Accumulated(counts, outcome.counts);
        log := log.With(Pass(envs(batch), tried, outcome));
        if !outcome.moreWaiting { return; }
        if stops(batch) {
          interrupted := true;
          return;
        }
        if batch >= deadline {
          budgetSpent := true;
          return;
        }
        batch := batch + 1;
      }
    }

    /** The work under a claim that was won, and the row that records it. */
    method RunClaimed(k: Key, size: nat, envs: nat -> Env, stops: nat -> bool, deadline: nat,
                      token: Token, attempt: nat, max: nat, at: Time)
      returns (r: RunResult, ghost log: Log)
      requires size >= 1 && k in runs.rows && runs.rows[k].status.Claimed? && runs.rows[k].attempts == attempt
      requires forall j :: j in runs.rows && Live(runs.rows[j], token, at) ==> j == k
      modifies runs
      ensures log.Valid(k.task, size) && log.Met(envs) && k in runs.rows && !r.NotClaimed?
      ensures runs.rows[k].status.Succeeded? <==> r.CompletedRun?
      ensures r.CompletedRun? ==>
        Drained(k.task, log) && Live(old(runs.rows)[k], token, at)
        && runs.rows == CompleteRows(old(runs.rows), token, log.counts, at)
      ensures r.Incomplete? ==>
        && log.passes != []
        && var ending := EndingOf(log, stops(|log.passes| - 1));
        && ending.HandsBack?
        && r.code == (if Live(old(runs.rows)[k], token, at) then ending.code else ClaimLost)
        && runs.rows == FailRows(old(runs.rows), token, log.counts, attempt < max, ending.code, at)
      ensures r.FailedRun? ==>
        || (envs(|log.passes|).throws == Some(r.code)
            && runs.rows == FailRows(old(runs.rows), token, log.counts, attempt < max, r.code, at))
        || (r.code.ClaimLost? && !Live(old(runs.rows)[k], token, at) && runs.rows == old(runs.rows))
    {
      ghost var claimed := runs.rows;
      var counts, thrown, interrupted, budgetSpent, refusals;
      counts, thrown, interrupted, budgetSpent, refusals, log := Batches(k.task, size, envs, stops, deadline);
      if thrown.Some? {
        NeverSucceeds(claimed, k, token, at, counts, attempt < max, thrown.value);
      } else if budgetSpent || interrupted || refusals > 0 {
        NeverSucceeds(claimed, k, token, at, counts, attempt < max, CodeOf(interrupted, budgetSpent));
        FailWritesIfLive(claimed, k, token, at, counts, attempt < max, CodeOf(interrupted, budgetSpent));
      } else {
        CompletesOnlyDrained(k.task, size, log, false);
        CompleteWritesIfLive(claimed, k, token, at, counts);
      }
      r := Settle(token, attempt, thrown, interrupted, budgetSpent, refusals, counts, max, at);
    }

    /** One window of one task, from the claim to the row that records it. */
    method RunTask(k: Key, size: nat, envs: nat -> Env, stops: nat -> bool, deadline: nat,
                   token: Token, lease: nat, max: nat, contended: bool, claimedAt: Time, finishedAt: Time)
      returns (r: RunResult, ghost log: Log)
      requires size >= 1
      requires forall j :: j in runs.rows ==> runs.rows[j].holder != Some(token)
      modifies runs
      ensures log.Valid(k.task, size) && log.Met(envs)
      // A window newly recorded as succeeded was really drained.
      ensures (k in runs.rows && runs.rows[k].status.Succeeded?) ==>
        (k in old(runs.rows) && old(runs.rows)[k].status.Succeeded?) || (r.CompletedRun? && Drained(k.task, log))
      ensures r.CompletedRun? ==>
        && runs.rows == CompleteRows(ClaimedRows(old(runs.rows), k, claimedAt, lease, max, token), token, log.counts,
                                     finishedAt)
        && k in runs.rows && runs.rows[k].status.Succeeded?
      ensures r.Incomplete? ==>
        log.passes != [] && (r.code == ClaimLost || EndingOf(log, stops(|log.passes| - 1)) == HandsBack(r.code))
      ensures r.FailedRun? ==> r.code == ClaimLost || envs(|log.passes|).throws == Some(r.code)
    {
      log := Log([], map[]);
      var claim := runs.Claim(k, claimedAt, lease, max, token, contended);
      if claim.Refused? { return NotClaimed(claim.reason), log; }
      OnlyOurs(old(runs.rows), k, claimedAt, lease, max, token, finishedAt);
      r, log := RunClaimed(k, size, envs, stops, deadline, token, claim.attempt, max, finishedAt);
    }

    /** Writes the run's ending under its claim, and says whether the claim still stood. */
    method Settle(token: Token, attempt: nat, thrown: Option<Code>, interrupted: bool, budgetSpent: bool, refusals: nat,
                  counts: Counts, max: nat, at: Time)
      returns (r: RunResult)
      modifies runs
      ensures thrown.Some? ==>
        r == FailedRun(thrown.value)
        && runs.rows == FailRows(old(runs.rows), token, counts, attempt < max, thrown.value, at)
      ensures thrown.None? && (budgetSpent || interrupted || refusals > 0) ==>
        && runs.rows == FailRows(old(runs.rows), token, counts, attempt < max, CodeOf(interrupted, budgetSpent), at)
        && r == Incomplete(if runs.rows != old(runs.rows) then CodeOf(interrupted, budgetSpent) else ClaimLost)
      ensures thrown.None? && !budgetSpent && !interrupted && refusals == 0 ==>
        && runs.rows == CompleteRows(old(runs.rows), token, counts, at)
        && r == if runs.rows != old(runs.rows) then CompletedRun else FailedRun(ClaimLost)
    {
      if thrown.Some? {
        var recorded := runs.Fail(token, attempt, true, thrown.value, counts, max, at);
        return FailedRun(thrown.value);
      }
      if budgetSpent || interrupted || refusals > 0 {
        var code := CodeOf(interrupted, budgetSpent);
        var handedBack := runs.Fail(token, attempt, true, code, counts, max, at);
        return Incomplete(if handedBack then code else ClaimLost);
      }
      var recorded := runs.Complete(token, counts, at);
      return if recorded then CompletedRun else FailedRun(ClaimLost);
    }
  }

  /** A fresh token can write the window it claimed, and no other. */
  lemma OnlyOurs(rows: Rows, k: Key, now: Time, lease: nat, max: nat, token: Token, at: Time)
    requires forall j :: j in rows ==> rows[j].holder != Some(token)
    ensures var claimed := ClaimedRows(rows, k, now, lease, max, token);
      forall j :: j in claimed && Live(claimed[j], token, at) ==> j == k
  {
  }

  lemma CompleteWritesIfLive(rows: Rows, k: Key, token: Token, at: Time, added: Counts)
    requires k in rows && forall j :: j in rows && Live(rows[j], token, at) ==> j == k
    ensures CompleteRows(rows, token, added, at) != rows <==> Live(rows[k], token, at)
  {
    if Live(rows[k], token, at) { assert CompleteRows(rows, token, added, at)[k] != rows[k]; }
  }

  lemma NeverSucceeds(rows: Rows, k: Key, token: Token, at: Time, added: Counts, handBack: bool, code: Code)
    requires k in rows && !rows[k].status.Succeeded?
    ensures !FailRows(rows, token, added, handBack, code, at)[k].status.Succeeded?
  {
  }

  lemma FailWritesIfLive(rows: Rows, k: Key, token: Token, at: Time, added: Counts, handBack: bool, code: Code)
    requires k in rows && forall j :: j in rows && Live(rows[j], token, at) ==> j == k
    ensures FailRows(rows, token, added, handBack, code, at) != rows <==> Live(rows[k], token, at)
  {
    FailMeans(rows, token, added, handBack, code, at);
  }
}
