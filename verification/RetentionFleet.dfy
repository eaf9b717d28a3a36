/**
 * Many replicas working on the retention windows at once. Claims, batches and finishing statements interleave freely,
 * replicas die or outlive their lease, and others recover or close their windows meanwhile.
 */
module RetentionFleet {
  import opened Options
  import opened ScheduledRuns
  import Ledger = ScheduledRunLaws
  import opened RetentionRun

  /** A run in progress: the task and window it claimed, the attempt number it was told, and its batches so far. */
  datatype Replica = Replica(key: Key, attempt: nat, log: Log)

  /** `closed` remembers the run whose completion was accepted for a window. */
  datatype Fleet = Fleet(ledger: Ledger.Ledger, replicas: map<Token, Replica>, closed: map<Key, Replica>)

  datatype Step =
    | Claim(at: Time, k: Key, token: Token)
    | Work(token: Token, pass: Pass)
    | Finish(at: Time, token: Token, stopping: bool)
    | Throw(at: Time, token: Token, code: Code)
    | Die(token: Token)
    | Abandon(at: Time, k: Key)
    | CloseEarlier(at: Time, current: Time)

  ghost predicate Enabled(size: nat, s: Fleet, e: Step) {
    match e
    case Claim(at, _, token) => at >= s.ledger.now && token !in s.ledger.issued
    case Work(token, pass) =>
      && token in s.replicas && pass.Happens(s.replicas[token].key.task, size)
      && (s.replicas[token].log.passes == [] || s.replicas[token].log.Waiting())
    case Finish(at, token, _) => at >= s.ledger.now && token in s.replicas && s.replicas[token].log.passes != []
    case Throw(at, token, _) => at >= s.ledger.now && token in s.replicas
    case Die(token) => token in s.replicas
    case Abandon(at, _) => at >= s.ledger.now
    case CloseEarlier(at, _) => at >= s.ledger.now
  }

  /** The ledger statement a step issues, if any. */
  function StatementOf(s: Fleet, e: Step): Option<Ledger.Timed>
    requires e.Finish? || e.Throw? ==> e.token in s.replicas
  {
    match e
    case Claim(at, k, token) =>
      Some(Ledger.Timed(at, if k in s.ledger.rows then Ledger.Recover(k, token) else Ledger.Insert(k, token)))
    case Finish(at, token, stopping) =>
      var r := s.replicas[token];
      Some(Ledger.Timed(at, match EndingOf(r.log, stopping)
        case Completes => Ledger.Complete(token, r.log.counts)
        case HandsBack(code) => Ledger.Fail(token, r.log.counts, r.attempt < s.ledger.max, code)))
    case Throw(at, token, code) =>
      var r := s.replicas[token];
      Some(Ledger.Timed(at, Ledger.Fail(token, r.log.counts, r.attempt < s.ledger.max, code)))
    case Abandon(at, k) => Some(Ledger.Timed(at, Ledger.Abandon(k)))
    case CloseEarlier(at, current) => Some(Ledger.Timed(at, Ledger.Close(current)))
    case _ => None
  }

  function LedgerAfter(s: Fleet, e: Step): Ledger.Ledger
    requires e.Finish? || e.Throw? ==> e.token in s.replicas
  {
    match StatementOf(s, e) case None => s.ledger case Some(timed) => Ledger.Next(s.ledger, timed)
  }

  /** The finishing statement is a completion, and the claim it names still stands. */
  predicate Succeeds(s: Fleet, e: Step) {
    && e.Finish? && e.token in s.replicas && EndingOf(s.replicas[e.token].log, e.stopping).Completes?
    && var k := s.replicas[e.token].key;
    k in s.ledger.rows && Live(s.ledger.rows[k], e.token, e.at)
  }

  function Next(s: Fleet, e: Step): Fleet
    requires e.Work? || e.Finish? || e.Throw? || e.Die? ==> e.token in s.replicas
  {
    var ledger := LedgerAfter(s, e);
    match e
    case Claim(_, k, token) =>
      var won := k in ledger.rows && ledger.rows[k].holder == Some(token);
      if won then Fleet(ledger, s.replicas[token := Replica(k, ledger.rows[k].attempts, Log([], map[]))], s.closed)
      else s.(ledger := ledger)
    case Work(token, pass) =>
      s.(replicas := s.replicas[token := s.replicas[token].(log := s.replicas[token].log.With(pass))])
    case Finish(_, token, _) =>
      Fleet(ledger, s.replicas - {token},
            if Succeeds(s, e) then s.closed[s.replicas[token].key := s.replicas[token]] else s.closed)
    case Throw(_, token, _) => Fleet(ledger, s.replicas - {token}, s.closed)
    case Die(token) => s.(replicas := s.replicas - {token})
    case Abandon(_, _) => s.(ledger := ledger)
    case CloseEarlier(_, _) => s.(ledger := ledger)
  }

  type Run = seq<Step>

  ghost predicate ValidRun(size: nat, s: Fleet, run: Run)
    decreases |run|
  {
    run == [] || (Enabled(size, s, run[0]) && ValidRun(size, Next(s, run[0]), run[1..]))
  }

  ghost function After(size: nat, s: Fleet, run: Run): Fleet
    requires ValidRun(size, s, run)
    decreases |run|
  {
    if run == [] then s else After(size, Next(s, run[0]), run[1..])
  }

  function Start(now: Time, max: nat, lease: nat): Fleet { Fleet(Ledger.Start(now, max, lease), map[], map[]) }

  // ---- the invariant ----

  /** A token holds no window but the one its replica claimed. */
  ghost predicate HoldsOwn(s: Fleet) {
    && (forall t :: t in s.replicas ==> t in s.ledger.issued)
    && (forall k :: k in s.ledger.rows && s.ledger.rows[k].holder.Some? ==>
          s.ledger.rows[k].holder.value in s.ledger.issued)
    && forall t, k :: t in s.replicas && k in s.ledger.rows && s.ledger.rows[k].holder == Some(t) ==>
      s.replicas[t].key == k
  }

  ghost predicate LogsValid(size: nat, s: Fleet) {
    forall t :: t in s.replicas ==> s.replicas[t].log.Valid(s.replicas[t].key.task, size)
  }

  /** Every succeeded window was closed by a run that drained its task. */
  ghost predicate AllDrained(size: nat, s: Fleet) {
    forall k :: k in s.ledger.rows && s.ledger.rows[k].status.Succeeded? ==>
      k in s.closed && DrainedBy(size, s.closed[k], k)
  }

  ghost predicate DrainedBy(size: nat, r: Replica, k: Key) {
    r.key == k && r.log.Valid(k.task, size) && Drained(k.task, r.log)
  }

  ghost predicate Inv(size: nat, s: Fleet) {
    Ledger.Inv(s.ledger) && HoldsOwn(s) && LogsValid(size, s) && AllDrained(size, s)
  }

  lemma StatementEnabled(size: nat, s: Fleet, e: Step)
    requires Enabled(size, s, e) && StatementOf(s, e).Some?
    ensures Ledger.Enabled(s.ledger, StatementOf(s, e).value)
  {
  }

  /** A row's holder is the one it had, none, or the token of the claim just made. */
  lemma HolderAfter(s: Fleet, e: Step, k: Key)
    requires (e.Finish? || e.Throw? ==> e.token in s.replicas) && k in LedgerAfter(s, e).rows
    ensures
      var holder := LedgerAfter(s, e).rows[k].holder;
      || holder.None? || (k in s.ledger.rows && holder == s.ledger.rows[k].holder)
      || (e.Claim? && e.k == k && holder == Some(e.token))
  {
  }

  lemma IssuedStep(size: nat, s: Fleet, e: Step)
    requires HoldsOwn(s) && Enabled(size, s, e)
    ensures
      var s' := Next(s, e);
      && (forall t :: t in s'.replicas ==> t in s'.ledger.issued)
      && forall k :: k in s'.ledger.rows && s'.ledger.rows[k].holder.Some? ==>
        s'.ledger.rows[k].holder.value in s'.ledger.issued
  {
    var s' := Next(s, e);
    assert s'.ledger == LedgerAfter(s, e);
    forall k | k in s'.ledger.rows && s'.ledger.rows[k].holder.Some?
      ensures s'.ledger.rows[k].holder.value in s'.ledger.issued
    {
      HolderAfter(s, e, k);
    }
  }

  lemma OwnStep(size: nat, s: Fleet, e: Step, t: Token, k: Key)
    requires HoldsOwn(s) && Enabled(size, s, e)
    requires t in Next(s, e).replicas && k in LedgerAfter(s, e).rows && LedgerAfter(s, e).rows[k].holder == Some(t)
    ensures Next(s, e).replicas[t].key == k
  {
    HolderAfter(s, e, k);
  }

  lemma HoldersStep(size: nat, s: Fleet, e: Step)
    requires HoldsOwn(s) && Enabled(size, s, e)
    ensures HoldsOwn(Next(s, e))
  {
    var s' := Next(s, e);
    assert s'.ledger == LedgerAfter(s, e);
    IssuedStep(size, s, e);
    forall t, k | t in s'.replicas && k in s'.ledger.rows && s'.ledger.rows[k].holder == Some(t)
      ensures s'.replicas[t].key == k
    {
      OwnStep(size, s, e, t, k);
    }
  }

  /** Only an accepted completion makes a window succeed. */
  lemma SucceedsByCompletion(size: nat, s: Fleet, e: Step, k: Key)
    requires Inv(size, s) && Enabled(size, s, e) && k in LedgerAfter(s, e).rows
    requires LedgerAfter(s, e).rows[k].status.Succeeded?
    ensures
      || (k in s.ledger.rows && s.ledger.rows[k].status.Succeeded?)
      || (Succeeds(s, e) && s.replicas[e.token].key == k)
  {
  }

  lemma DrainedStep(size: nat, s: Fleet, e: Step)
    requires size >= 1 && Inv(size, s) && Enabled(size, s, e)
    ensures AllDrained(size, Next(s, e))
  {
    var s' := Next(s, e);
    if Succeeds(s, e) {
      var r := s.replicas[e.token];
      CompletesOnlyDrained(r.key.task, size, r.log, e.stopping);
      assert DrainedBy(size, r, r.key);
    }
    forall k | k in s'.ledger.rows && s'.ledger.rows[k].status.Succeeded?
      ensures k in s'.closed && DrainedBy(size, s'.closed[k], k)
    {
      SucceedsByCompletion(size, s, e, k);
    }
  }

  lemma LogsStep(size: nat, s: Fleet, e: Step)
    requires Inv(size, s) && Enabled(size, s, e)
    ensures LogsValid(size, Next(s, e))
  {
    if e.Work? { LogGrows(s.replicas[e.token].log, e.pass, s.replicas[e.token].key.task, size); }
  }

  lemma StepKeeps(size: nat, s: Fleet, e: Step)
    requires size >= 1 && Inv(size, s) && Enabled(size, s, e)
    ensures Inv(size, Next(s, e))
  {
    if StatementOf(s, e).Some? {
      StatementEnabled(size, s, e);
      Ledger.StepKeeps(s.ledger, StatementOf(s, e).value);
    }
    HoldersStep(size, s, e);
    LogsStep(size, s, e);
    DrainedStep(size, s, e);
  }

  lemma {:induction false} RunKeeps(size: nat, s: Fleet, run: Run)
    requires size >= 1 && Inv(size, s) && ValidRun(size, s, run)
    ensures Inv(size, After(size, s, run))
    decreases |run|
  {
    if run != [] {
      StepKeeps(size, s, run[0]);
      RunKeeps(size, Next(s, run[0]), run[1..]);
    }
  }

  /**
   * Whatever the replicas do and in whatever order: a window recorded as succeeded was closed by a run of its own whose
   * last batch left nothing of its task due and which no provider refused anything.
   */
  lemma SucceededWasDrained(size: nat, now: Time, max: nat, lease: nat, run: Run, k: Key)
    requires size >= 1 && max >= 1 && ValidRun(size, Start(now, max, lease), run)
    requires var rows := After(size, Start(now, max, lease), run).ledger.rows; k in rows && rows[k].status.Succeeded?
    ensures
      var closed := After(size, Start(now, max, lease), run).closed;
      k in closed && closed[k].key == k && closed[k].log.Valid(k.task, size) && Drained(k.task, closed[k].log)
  {
    RunKeeps(size, Start(now, max, lease), run);
  }
}
